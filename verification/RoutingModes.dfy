/** Switching the routing mode while rules are loaded and refreshed (`RoutingRules` of
    `src/routing_rules.rs`): the object, and every interleaving of mode updates with
    loaders and refreshers.

    Tasks run on several threads, so looking at the generation and writing the state are two steps. */
module RoutingModes {
  import opened Wrappers

  type Rules = set<string>

  datatype Mode = Global | Auto

  datatype State = Domains(rules: Rules) | GlobalProxy | DirectFallback

  /** What a load comes to, for the loader that `set_mode` or `load` runs first. */
  function FirstState(loaded: Option<Rules>): State {
    if loaded.Some? then Domains(loaded.value) else DirectFallback
  }

  /** What `set_mode` makes of the state at once. */
  function AfterSetMode(state: State, mode: Mode): State {
    if mode.Global? then GlobalProxy else state
  }

  /** What the loader of generation `own` makes of it. */
  function AfterFirstLoad(state: State, generation: nat, own: nat, loaded: Option<Rules>): State {
    if generation == own then FirstState(loaded) else state
  }

  /** What a load of the refresher of generation `own` makes of it. */
  function AfterLoad(state: State, generation: nat, own: nat, loaded: Option<Rules>): State {
    if generation == own && loaded.Some? then Domains(loaded.value) else state
  }

  /** The object as a value. */
  datatype Held = Held(state: State, generation: nat)

  class RoutingRules {
    var state: State
    var generation: nat

    ghost function Value(): Held
      reads this
    {
      Held(state, generation)
    }

    constructor (state: State)
      ensures Value() == Held(state, 0)
    {
      this.state := state;
      generation := 0;
    }

    /** The generation of the loader it spawns, if it does. */
    method SetMode(mode: Mode) returns (loader: Option<nat>)
      modifies this
      ensures Value() == Held(AfterSetMode(old(state), mode), old(generation) + 1)
      ensures loader == if mode.Auto? then Some(generation) else None
    {
      generation := generation + 1;
      match mode {
        case Global =>
          state := GlobalProxy;
          loader := None;
        case Auto =>
          loader := Some(generation);
      }
    }

    /** What the loader does when its load has ended; whether it spawns a refresher. */
    method FinishLoad(own: nat, loaded: Option<Rules>) returns (refresher: bool)
      modifies this`state
      ensures state == AfterFirstLoad(old(state), generation, own, loaded)
      ensures refresher == (generation == own && loaded.Some?)
    {
      if generation != own {
        return false;
      }
      match loaded {
        case Some(rules) =>
          state := Domains(rules);
          refresher := true;
        case None =>
          state := DirectFallback;
          refresher := false;
      }
    }

    /** The mode updates that come in while a refresher awaits something. */
    method Meanwhile(modes: seq<Mode>)
      modifies this
      ensures Value() == Updated(old(Value()), modes)
    {
      var rest := modes;
      while rest != []
        invariant Updated(Value(), rest) == Updated(old(Value()), modes)
        decreases |rest|
      {
        var _ := SetMode(rest[0]);
        rest := rest[1..];
      }
    }

    /** The loop of the refresher of generation `own`, over the turns it could make. */
    method Refresh(own: nat, turns: seq<RefreshTurn>)
      modifies this
      ensures Value() == RefreshRun(old(Value()), own, turns)
    {
      var rest := turns;
      while rest != []
        invariant RefreshRun(Value(), own, rest) == RefreshRun(old(Value()), own, turns)
        decreases |rest|
      {
        var turn := rest[0];
        Meanwhile(turn.asleep);
        if generation != own {
          return;
        }
        Meanwhile(turn.loading);
        match turn.loaded {
          case Some(rules) =>
            if generation != own {
              return;
            }
            state := Domains(rules);
          case None =>
        }
        rest := rest[1..];
      }
    }
  }

  /** `load`; in `Auto` mode a refresher of generation 0 is spawned whatever came of the first load. */
  method LoadRoutingRules(mode: Mode, loaded: Option<Rules>) returns (rules: RoutingRules, refresher: Option<nat>)
    ensures fresh(rules) && rules.generation == 0
    ensures rules.state == if mode.Global? then GlobalProxy else FirstState(loaded)
    ensures refresher == if mode.Global? then None else Some(0)
  {
    if mode.Global? {
      rules := new RoutingRules(GlobalProxy);
      return rules, None;
    }
    rules := new RoutingRules(FirstState(loaded));
    refresher := Some(0);
  }

  function Updated(held: Held, modes: seq<Mode>): Held
    decreases |modes|
  {
    if modes == [] then held
    else Updated(Held(AfterSetMode(held.state, modes[0]), held.generation + 1), modes[1..])
  }

  /** One turn of the refresher: the updates while it sleeps, what it loads, and the updates meanwhile. */
  datatype RefreshTurn = RefreshTurn(asleep: seq<Mode>, loaded: Option<Rules>, loading: seq<Mode>)

  function RefreshRun(held: Held, own: nat, turns: seq<RefreshTurn>): Held
    decreases |turns|
  {
    if turns == [] then
      held
    else
      var woken := Updated(held, turns[0].asleep);
      if woken.generation != own then
        woken
      else
        var after := Updated(woken, turns[0].loading);
        if turns[0].loaded.Some? && after.generation != own then
          after
        else
          RefreshRun(after.(state := AfterLoad(after.state, after.generation, own, turns[0].loaded)), own, turns[1..])
  }

  // ---- A refresher and mode updates ----

  lemma {:induction false} UpdatesCount(held: Held, modes: seq<Mode>)
    ensures Updated(held, modes).generation == held.generation + |modes|
    ensures Updated(held, modes).state == if Global in modes then GlobalProxy else held.state
    decreases |modes|
  {
    if modes != [] {
      UpdatesCount(Held(AfterSetMode(held.state, modes[0]), held.generation + 1), modes[1..]);
      assert Global in modes <==> modes[0] == Global || Global in modes[1..];
    }
  }

  function NextState(state: State, turn: RefreshTurn): State {
    if turn.loaded.Some? then Domains(turn.loaded.value) else state
  }

  /** The state after loads one of which may have succeeded: the rules of the last that did. */
  function Refreshed(state: State, turns: seq<RefreshTurn>): (after: State)
    ensures after == state || after.Domains?
    decreases |turns|
  {
    if turns == [] then state
    else Refreshed(NextState(state, turns[0]), turns[1..])
  }

  predicate Undisturbed(turn: RefreshTurn) {
    turn.asleep == [] && turn.loading == []
  }

  /** A refresher that was overtaken writes nothing any more. */
  lemma OutdatedEnds(held: Held, own: nat, turns: seq<RefreshTurn>)
    requires held.generation > own
    ensures RefreshRun(held, own, turns) == if turns == [] then held else Updated(held, turns[0].asleep)
  {
    if turns != [] {
      UpdatesCount(held, turns[0].asleep);
    }
  }

  /** The updates of a turn end the loop, at once or when the refresher next looks. */
  lemma DisturbedTurnIsLast(held: Held, own: nat, turns: seq<RefreshTurn>) returns (modes: seq<Mode>)
    requires held.generation == own && turns != [] && !Undisturbed(turns[0])
    ensures modes != [] && RefreshRun(held, own, turns) == Updated(held, modes)
  {
    var turn := turns[0];
    UpdatesCount(held, turn.asleep);
    if turn.asleep != [] {
      modes := turn.asleep;
    } else {
      var after := Updated(held, turn.loading);
      UpdatesCount(held, turn.loading);
      if turn.loaded.Some? || |turns| == 1 {
        modes := turn.loading;
      } else {
        OutdatedEnds(after, own, turns[1..]);
        UpdatedTwice(held, turn.loading, turns[1].asleep);
        modes := turn.loading + turns[1].asleep;
      }
    }
  }

  lemma UndisturbedTurn(held: Held, own: nat, turns: seq<RefreshTurn>)
    requires held.generation == own && turns != [] && Undisturbed(turns[0])
    ensures RefreshRun(held, own, turns) == RefreshRun(Held(NextState(held.state, turns[0]), own), own, turns[1..])
  {
    assert Updated(held, []) == held;
  }

  lemma RefreshedOneMore(state: State, turns: seq<RefreshTurn>, k: nat)
    requires k < |turns|
    ensures Refreshed(state, turns[..k + 1]) == Refreshed(NextState(state, turns[0]), turns[1..][..k])
  {
    assert turns[..k + 1][1..] == turns[1..][..k];
  }

  /** While no mode update comes the refresher keeps the rules of the last load that succeeded; from
      the first update on, in turn `k`, it writes nothing: what is left then is what the updates that
      came until it noticed made of those rules. */
  lemma {:induction false} NothingAfterAnUpdate(held: Held, own: nat, turns: seq<RefreshTurn>)
    returns (k: nat, modes: seq<Mode>)
    requires held.generation == own
    ensures k <= |turns| && forall turn <- turns[..k] :: Undisturbed(turn)
    ensures RefreshRun(held, own, turns) == Updated(Held(Refreshed(held.state, turns[..k]), own), modes)
    ensures if k == |turns| then modes == [] else !Undisturbed(turns[k]) && modes != []
    decreases |turns|
  {
    assert turns[..0] == [];
    if turns == [] {
      k, modes := 0, [];
    } else if !Undisturbed(turns[0]) {
      k := 0;
      modes := DisturbedTurnIsLast(held, own, turns);
    } else {
      UndisturbedTurn(held, own, turns);
      var l;
      l, modes := NothingAfterAnUpdate(Held(NextState(held.state, turns[0]), own), own, turns[1..]);
      RefreshedOneMore(held.state, turns, l);
      k := l + 1;
      forall turn <- turns[..k] ensures Undisturbed(turn) {
        assert turn == turns[0] || turn in turns[1..][..l];
      }
    }
  }

  lemma {:induction false} UpdatedTwice(held: Held, a: seq<Mode>, b: seq<Mode>)
    ensures Updated(Updated(held, a), b) == Updated(held, a + b)
    decreases |a|
  {
    if a == [] {
      assert a + b == b;
    } else {
      assert (a + b)[1..] == a[1..] + b;
      UpdatedTwice(Held(AfterSetMode(held.state, a[0]), held.generation + 1), a[1..], b);
    }
  }

  // ---- Interleavings ----

  datatype Stage =
    | Loading(first: bool)                    // `first` in what `set_mode` spawned, before the loop
    | Checking(first: bool, value: State)     // loaded; about to look at the generation
    | Writing(first: bool, value: State)      // it was current; about to write
    | Sleeping

  datatype Task = Task(generation: nat, stage: Stage)

  /** `set_mode` before and after it takes its generation. One task applies all mode updates. */
  datatype Setter = Idle | Taken(mode: Mode)

  datatype World = World(
    state: State,
    generation: nat,
    setter: Setter,
    tasks: map<nat, Task>,
    installed: set<nat>)             // the generations that have written `Domains`

  datatype Step =
    | TakeGeneration(mode: Mode)
    | FinishSet(id: nat)
    | Wake(id: nat)
    | Load(id: nat, loaded: Option<Rules>)
    | Check(id: nat)
    | Write(id: nat)

  predicate Enabled(w: World, step: Step) {
    match step
    case TakeGeneration(_) => w.setter.Idle?
    case FinishSet(id) => w.setter.Taken? && id !in w.tasks
    case Wake(id) => id in w.tasks && w.tasks[id].stage.Sleeping?
    case Load(id, _) => id in w.tasks && w.tasks[id].stage.Loading?
    case Check(id) => id in w.tasks && w.tasks[id].stage.Checking?
    case Write(id) => id in w.tasks && w.tasks[id].stage.Writing?
  }

  function Put(w: World, id: nat, stage: Stage): World
    requires id in w.tasks
  {
    w.(tasks := w.tasks[id := w.tasks[id].(stage := stage)])
  }

  function Gone(w: World, id: nat): World {
    w.(tasks := w.tasks - {id})
  }

  function WriteStep(w: World, id: nat): World
    requires Enabled(w, Write(id))
  {
    var task := w.tasks[id];
    var value := task.stage.value;
    (if task.stage.first && !value.Domains? then Gone(w, id) else Put(w, id, Sleeping)).(
      state := value,
      installed := if value.Domains? then w.installed + {task.generation} else w.installed)
  }

  function Apply(w: World, step: Step): World
    requires Enabled(w, step)
  {
    match step
    case TakeGeneration(mode) => w.(generation := w.generation + 1, setter := Taken(mode))
    case FinishSet(id) =>
      if w.setter.mode.Global? then w.(state := GlobalProxy, setter := Idle)
      else w.(tasks := w.tasks[id := Task(w.generation, Loading(true))], setter := Idle)
    case Wake(id) =>
      if w.generation == w.tasks[id].generation then Put(w, id, Loading(false)) else Gone(w, id)
    case Load(id, loaded) =>
      var first := w.tasks[id].stage.first;
      if first || loaded.Some? then Put(w, id, Checking(first, FirstState(loaded))) else Put(w, id, Sleeping)
    case Check(id) =>
      if w.generation == w.tasks[id].generation then
        Put(w, id, Writing(w.tasks[id].stage.first, w.tasks[id].stage.value))
      else
        Gone(w, id)
    case Write(id) => WriteStep(w, id)
  }

  /** After `load`. */
  predicate Init(w: World) {
    && w.generation == 0 && w.setter.Idle?
    && (if w.state.GlobalProxy? then
          w.tasks == map[] && w.installed == {}
        else
          w.tasks == map[0 := Task(0, Sleeping)] && w.installed == if w.state.Domains? then {0} else {})
  }

  predicate Stepped(worlds: seq<World>, steps: seq<Step>, i: nat) {
    && i < |steps| && i + 1 < |worlds|
    && Enabled(worlds[i], steps[i])
    && worlds[i + 1] == Apply(worlds[i], steps[i])
  }

  /** A run from any world. */
  ghost predicate Steps(worlds: seq<World>, steps: seq<Step>) {
    && |worlds| == |steps| + 1
    && forall i: nat {:trigger Stepped(worlds, steps, i)} | i < |steps| :: Stepped(worlds, steps, i)
  }

  ghost predicate Run(worlds: seq<World>, steps: seq<Step>) {
    Steps(worlds, steps) && Init(worlds[0])
  }

  // ---- The steps do what the methods do ----

  /** What `load` leaves, as the beginning of a run. */
  function LoadedWorld(mode: Mode, loaded: Option<Rules>): World {
    if mode.Global? then World(GlobalProxy, 0, Idle, map[], {})
    else World(FirstState(loaded), 0, Idle, map[0 := Task(0, Sleeping)], if loaded.Some? then {0} else {})
  }

  /** Runs begin with what `LoadRoutingRules` returns, and with nothing else. */
  lemma RunsBeginLoaded(w: World)
    ensures Init(w) <==> exists mode, loaded :: w == LoadedWorld(mode, loaded)
  {
    if Init(w) {
      match w.state
      case GlobalProxy => assert w == LoadedWorld(Global, None);
      case Domains(rules) => assert w == LoadedWorld(Auto, Some(rules));
      case DirectFallback => assert w == LoadedWorld(Auto, None);
    }
  }

  /** The two steps of a mode update do what `SetMode` does, and spawn the loader it names. */
  lemma SetModeIsItsSteps(w: World, mode: Mode, id: nat)
    requires Enabled(w, TakeGeneration(mode)) && id !in w.tasks
    ensures var taken := Apply(w, TakeGeneration(mode));
            && Enabled(taken, FinishSet(id))
            && var after := Apply(taken, FinishSet(id));
               && Held(after.state, after.generation) == Updated(Held(w.state, w.generation), [mode])
               && after.setter.Idle?
               && after.tasks == if mode.Auto? then w.tasks[id := Task(after.generation, Loading(true))] else w.tasks
  {
    assert [mode][1..] == [];
    assert Updated(Held(AfterSetMode(w.state, mode), w.generation + 1), [])
        == Held(AfterSetMode(w.state, mode), w.generation + 1);
  }

  /** The look at the generation and, if it was current, the write, with nothing in between. */
  function CheckedAndWritten(w: World, id: nat): World
    requires id in w.tasks && w.tasks[id].stage.Checking?
  {
    var checked := Apply(w, Check(id));
    if id in checked.tasks then Apply(checked, Write(id)) else checked
  }

  /** With nothing in between, a loader's steps do what `FinishLoad` does. */
  lemma FinishLoadIsItsSteps(w: World, id: nat, loaded: Option<Rules>)
    requires id in w.tasks && w.tasks[id].stage == Loading(true)
    ensures var own := w.tasks[id].generation;
            var after := CheckedAndWritten(Apply(w, Load(id, loaded)), id);
            && after.state == AfterFirstLoad(w.state, w.generation, own, loaded) && after.generation == w.generation
            && (id in after.tasks <==> w.generation == own && loaded.Some?)
            && (id in after.tasks ==> after.tasks[id] == Task(own, Sleeping))
  {
  }

  /** One turn of a refresher, with nothing in between. */
  function Turned(w: World, id: nat, loaded: Option<Rules>): World
    requires id in w.tasks && w.tasks[id].stage.Sleeping?
  {
    var woken := Apply(w, Wake(id));
    if id !in woken.tasks then
      woken
    else
      var after := Apply(woken, Load(id, loaded));
      if loaded.Some? then CheckedAndWritten(after, id) else after
  }

  /** Its steps do what a turn of `Refresh` does. */
  lemma RefreshIsItsSteps(w: World, id: nat, loaded: Option<Rules>)
    requires id in w.tasks && w.tasks[id].stage.Sleeping?
    ensures var own := w.tasks[id].generation;
            var after := Turned(w, id, loaded);
            && Held(after.state, after.generation)
            == RefreshRun(Held(w.state, w.generation), own, [RefreshTurn([], loaded, [])])
            && (id in after.tasks <==> w.generation == own)
            && (id in after.tasks ==> after.tasks[id] == Task(own, Sleeping))
  {
    var held := Held(w.state, w.generation);
    assert [RefreshTurn([], loaded, [])][1..] == [];
    assert Updated(held, []) == held;
  }

  // ---- Invariants ----

  predicate TaskOk(task: Task, generation: nat, setter: Setter, installed: set<nat>) {
    && task.generation <= generation
    && (setter.Taken? ==> task.generation < generation)
    && (match task.stage
        case Loading(first) => first ==> task.generation !in installed
        case Checking(first, value) =>
          !value.GlobalProxy? && (value.DirectFallback? ==> first) && (first ==> task.generation !in installed)
        case Writing(first, value) =>
          !value.GlobalProxy? && (value.DirectFallback? ==> first) && (first ==> task.generation !in installed)
        case Sleeping => true)
  }

  /** No two tasks share a generation. */
  predicate Single(tasks: map<nat, Task>) {
    forall a, b | a in tasks && b in tasks && tasks[a].generation == tasks[b].generation :: a == b
  }

  ghost predicate Inv(w: World) {
    && (forall id <- w.tasks :: TaskOk(w.tasks[id], w.generation, w.setter, w.installed))
    && Single(w.tasks)
    && (forall g <- w.installed :: g <= w.generation && (w.setter.Taken? ==> g < w.generation))
  }

  lemma InvKept(w: World, step: Step)
    requires Inv(w) && Enabled(w, step)
    ensures Inv(Apply(w, step))
  {
    if step.Write? {
      WriteKeeps(w, step.id);
    }
  }

  lemma WriteKeeps(w: World, id: nat)
    requires Inv(w) && Enabled(w, Write(id))
    ensures Inv(Apply(w, Write(id)))
  {
    var w' := Apply(w, Write(id));
    forall other <- w'.tasks ensures TaskOk(w'.tasks[other], w'.generation, w'.setter, w'.installed) {
      assert TaskOk(w.tasks[other], w.generation, w.setter, w.installed);
      assert other != id ==> w.tasks[other].generation != w.tasks[id].generation;
    }
  }

  lemma {:induction false} InvAlways(worlds: seq<World>, steps: seq<Step>, i: nat)
    requires Run(worlds, steps) && i < |worlds|
    ensures Inv(worlds[i])
  {
    if i > 0 {
      InvAlways(worlds, steps, i - 1);
      assert Stepped(worlds, steps, i - 1);
      InvKept(worlds[i - 1], steps[i - 1]);
    }
  }

  // ---- Theorems ----

  lemma OneTaskPerGeneration(worlds: seq<World>, steps: seq<Step>, i: nat, a: nat, b: nat)
    requires Run(worlds, steps) && i < |worlds| && a in worlds[i].tasks && b in worlds[i].tasks
    requires worlds[i].tasks[a].generation == worlds[i].tasks[b].generation
    ensures a == b && worlds[i].tasks[a].generation <= worlds[i].generation
  {
    InvAlways(worlds, steps, i);
    assert TaskOk(worlds[i].tasks[a], worlds[i].generation, worlds[i].setter, worlds[i].installed);
  }

  /** Whatever a task writes, it found its generation current after loading, and nothing but a mode
      update can have made it outdated since. */
  lemma {:induction false} WritesAreCurrent(worlds: seq<World>, steps: seq<Step>, j: nat, id: nat) returns (i: nat)
    requires Run(worlds, steps) && j < |worlds| && id in worlds[j].tasks && worlds[j].tasks[id].stage.Writing?
    ensures i < j && steps[i] == Check(id) && id in worlds[i].tasks
    ensures worlds[i].generation == worlds[i].tasks[id].generation == worlds[j].tasks[id].generation
    ensures (forall k | i < k < j :: !steps[k].TakeGeneration?)
         ==> worlds[j].generation == worlds[j].tasks[id].generation
    decreases j
  {
    assert j > 0;
    assert Stepped(worlds, steps, j - 1);
    if steps[j - 1] == Check(id) {
      i := j - 1;
    } else {
      StillWriting(worlds[j - 1], steps[j - 1], id);
      i := WritesAreCurrent(worlds, steps, j - 1, id);
    }
  }

  lemma StillWriting(w: World, step: Step, id: nat)
    requires Enabled(w, step) && step != Check(id)
    requires id in Apply(w, step).tasks && Apply(w, step).tasks[id].stage.Writing?
    ensures id in w.tasks && w.tasks[id] == Apply(w, step).tasks[id]
    ensures !step.TakeGeneration? ==> Apply(w, step).generation == w.generation
  {
  }

  /** Rules that a generation has installed, be it `load` before the run or a task in it, it never
      replaces by direct routing. */
  lemma NoFallbackAfterRules(worlds: seq<World>, steps: seq<Step>, i: nat, j: nat)
    requires Run(worlds, steps) && i <= j < |steps| && steps[j].Write? && steps[j].id in worlds[j].tasks
    requires worlds[j].tasks[steps[j].id].generation in worlds[i].installed
    ensures worlds[j + 1].state.Domains?
  {
    InstalledStays(worlds, steps, i, j, worlds[j].tasks[steps[j].id].generation);
    InvAlways(worlds, steps, j);
    assert Stepped(worlds, steps, j);
    assert TaskOk(worlds[j].tasks[steps[j].id], worlds[j].generation, worlds[j].setter, worlds[j].installed);
  }

  /** What is on record as installed: the rules `load` came up with, and those a task wrote. */
  lemma InstalledIsRecorded(worlds: seq<World>, steps: seq<Step>, i: nat)
    requires Run(worlds, steps) && i <= |steps|
    ensures i == 0 ==> (0 in worlds[0].installed <==> worlds[0].state.Domains?)
    ensures i > 0 && steps[i - 1].Write? && steps[i - 1].id in worlds[i - 1].tasks && worlds[i].state.Domains? ==>
              worlds[i - 1].tasks[steps[i - 1].id].generation in worlds[i].installed
  {
    if i > 0 {
      assert Stepped(worlds, steps, i - 1);
    }
  }

  lemma {:induction false} InstalledStays(worlds: seq<World>, steps: seq<Step>, i: nat, j: nat, g: nat)
    requires Steps(worlds, steps) && i <= j < |worlds| && g in worlds[i].installed
    ensures g in worlds[j].installed
    decreases j
  {
    if i < j {
      InstalledStays(worlds, steps, i, j - 1, g);
      assert Stepped(worlds, steps, j - 1);
    }
  }

  /** The generation of the last mode update has no task: it asked for the global mode, or its load
      failed. */
  predicate Orphaned(w: World) {
    w.setter.Idle? && forall id <- w.tasks :: w.tasks[id].generation < w.generation
  }

  /** A task that was overtaken between its look at the generation and its write. */
  predicate Overtaken(w: World, id: nat) {
    id in w.tasks && w.tasks[id].stage.Writing? && w.tasks[id].stage.value != w.state
  }

  ghost predicate NoneOvertaken(w: World) {
    forall id :: !Overtaken(w, id)
  }

  predicate NoneWrites(w: World) {
    forall id <- w.tasks :: !w.tasks[id].stage.Writing?
  }

  /** A run from `w` without a mode update. */
  ghost predicate Continuation(w: World, worlds: seq<World>, steps: seq<Step>) {
    Steps(worlds, steps) && worlds[0] == w && forall step <- steps :: !step.TakeGeneration?
  }

  /** However the tasks go on, the state stays what it is until the next mode update. */
  ghost predicate StaysPut(w: World) {
    forall worlds: seq<World>, steps: seq<Step> | Continuation(w, worlds, steps) ::
      forall i | 0 <= i < |worlds| :: worlds[i].state == w.state
  }

  ghost predicate Quiet(w: World, state: State) {
    Orphaned(w) && w.state == state && NoneOvertaken(w)
  }

  lemma QuietKept(w: World, step: Step, state: State)
    requires Quiet(w, state) && Enabled(w, step) && !step.TakeGeneration?
    ensures Quiet(Apply(w, step), state)
  {
    var w' := Apply(w, step);
    if step.Write? {
      assert !Overtaken(w, step.id);
    }
    forall id ensures !Overtaken(w', id) {
      assert !Overtaken(w, id);
    }
  }

  lemma {:induction false} QuietThroughout(worlds: seq<World>, steps: seq<Step>, i: nat, state: State)
    requires i < |worlds| && Continuation(worlds[0], worlds, steps) && Quiet(worlds[0], state)
    ensures Quiet(worlds[i], state)
  {
    if i > 0 {
      QuietThroughout(worlds, steps, i - 1, state);
      assert Stepped(worlds, steps, i - 1);
      assert steps[i - 1] in steps;
      QuietKept(worlds[i - 1], steps[i - 1], state);
    }
  }

  /** Latest mode wins, exactly: once the last generation has no task, its state stays whatever older
      tasks do, if and only if none of them had already checked the generation and not yet written. */
  lemma LatestModeWins(w: World)
    requires Orphaned(w)
    ensures StaysPut(w) <==> NoneOvertaken(w)
  {
    if NoneOvertaken(w) {
      forall worlds: seq<World>, steps: seq<Step> | Continuation(w, worlds, steps)
        ensures forall i | 0 <= i < |worlds| :: worlds[i].state == w.state
      {
        forall i | 0 <= i < |worlds| ensures worlds[i].state == w.state {
          QuietThroughout(worlds, steps, i, w.state);
        }
      }
    } else {
      var id :| Overtaken(w, id);
      var worlds, steps := [w, Apply(w, Write(id))], [Write(id)];
      assert Stepped(worlds, steps, 0);
      assert Continuation(w, worlds, steps);
      assert worlds[1].state != w.state;
    }
  }

  /** `set_mode(Global)` gets there: its generation has no task, and the state is `GlobalProxy`. */
  lemma GlobalIsOrphaned(worlds: seq<World>, steps: seq<Step>, i: nat)
    requires Run(worlds, steps) && i < |steps| && steps[i].FinishSet? && worlds[i].setter == Taken(Global)
    ensures Orphaned(worlds[i + 1]) && worlds[i + 1].state == GlobalProxy
    ensures StaysPut(worlds[i + 1]) <==> NoneWrites(worlds[i + 1])
  {
    InvAlways(worlds, steps, i);
    InvAlways(worlds, steps, i + 1);
    assert Stepped(worlds, steps, i);
    var w := worlds[i + 1];
    forall id <- w.tasks
      ensures w.tasks[id].generation < w.generation && (Overtaken(w, id) <==> w.tasks[id].stage.Writing?)
    {
      assert TaskOk(worlds[i].tasks[id], worlds[i].generation, worlds[i].setter, worlds[i].installed);
      assert TaskOk(w.tasks[id], w.generation, w.setter, w.installed);
    }
    LatestModeWins(w);
  }

  /** A switch to `Auto` whose load fails leaves no task behind to try again: direct routing stays
      until the next mode update, unless an older task was overtaken while writing. */
  lemma FailedSwitchStaysDirect(worlds: seq<World>, steps: seq<Step>, i: nat)
    requires Run(worlds, steps) && i < |steps| && steps[i].Write? && worlds[i].setter.Idle?
    requires steps[i].id in worlds[i].tasks
    requires worlds[i].tasks[steps[i].id].generation == worlds[i].generation && worlds[i + 1].state == DirectFallback
    ensures Orphaned(worlds[i + 1])
    ensures StaysPut(worlds[i + 1]) <==> NoneOvertaken(worlds[i + 1])
  {
    InvAlways(worlds, steps, i);
    assert Stepped(worlds, steps, i);
    var w, id := worlds[i], steps[i].id;
    assert TaskOk(w.tasks[id], w.generation, w.setter, w.installed);
    var w' := worlds[i + 1];
    forall other <- w'.tasks ensures w'.tasks[other].generation < w'.generation {
      assert TaskOk(w.tasks[other], w.generation, w.setter, w.installed);
      assert other != id;
    }
    LatestModeWins(worlds[i + 1]);
  }

  /** The race is real: a run in which a refresher, about to write, is overtaken by a change to the
      global mode and then undoes it. */
  lemma GlobalCanBeUndone(rules: Rules) returns (worlds: seq<World>, steps: seq<Step>)
    ensures Run(worlds, steps) && |steps| == 6
    ensures steps[4] == FinishSet(1) && worlds[4].setter == Taken(Global) && worlds[5].state == GlobalProxy
    ensures worlds[6].state == Domains(rules) && worlds[6].generation == 1
  {
    var w0 := World(DirectFallback, 0, Idle, map[0 := Task(0, Sleeping)], {});
    steps := [Wake(0), Load(0, Some(rules)), Check(0), TakeGeneration(Global), FinishSet(1), Write(0)];
    var w1 := Apply(w0, steps[0]);
    var w2 := Apply(w1, steps[1]);
    var w3 := Apply(w2, steps[2]);
    var w4 := Apply(w3, steps[3]);
    var w5 := Apply(w4, steps[4]);
    var w6 := Apply(w5, steps[5]);
    worlds := [w0, w1, w2, w3, w4, w5, w6];
    forall i: nat | i < 6 ensures Stepped(worlds, steps, i) {
    }
  }

  /** Within a generation that has installed rules, and with no older task about to write, routing
      stays by rules until the next mode update. */
  ghost predicate ByRules(w: World) {
    && w.setter.Idle? && w.generation in w.installed && w.state.Domains?
    && forall id <- w.tasks | w.tasks[id].generation < w.generation :: !w.tasks[id].stage.Writing?
  }

  lemma ByRulesKept(w: World, step: Step)
    requires Inv(w) && ByRules(w) && Enabled(w, step) && !step.TakeGeneration?
    ensures ByRules(Apply(w, step))
  {
    if step.Write? {
      assert TaskOk(w.tasks[step.id], w.generation, w.setter, w.installed);
    }
  }

  lemma {:induction false} RulesStay(worlds: seq<World>, steps: seq<Step>, i: nat, j: nat)
    requires Run(worlds, steps) && i <= j < |worlds| && ByRules(worlds[i])
    requires forall k | i <= k < j :: !steps[k].TakeGeneration?
    ensures ByRules(worlds[j])
    decreases j
  {
    if i < j {
      RulesStay(worlds, steps, i, j - 1);
      InvAlways(worlds, steps, j - 1);
      assert Stepped(worlds, steps, j - 1);
      ByRulesKept(worlds[j - 1], steps[j - 1]);
    }
  }
}
