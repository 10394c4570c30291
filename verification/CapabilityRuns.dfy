/**
 * Every run of the capability set: enable and disable requests broken into their file and swap
 * steps, saves that fail, crashes at any point, and restarts (trust-registry/src/capabilities/mod.rs).
 */
module CapabilityRuns {
  import opened Domain
  import opened Tasks
  import opened Capabilities

  /** Where the one request that holds the state lock stands. */
  datatype Stage = Ready | WriteTmp | RenameTmp | SwapAdmin | SwapQuery

  datatype Process =
    | Down
    | Up(host: Host, states: States, admin: Dispatcher, query: Dispatcher, stage: Stage)

  /**
   * `disk` is what a restart would load; `lastSaved` remembers the last save that succeeded, and
   * `failures` counts the saves that have failed since then or since the last start.
   */
  datatype Machine = Machine(disk: States, tmp: Option<States>, lastSaved: States, failures: nat, process: Process)

  datatype Event =
    | Start(newHost: Host)
    | RequestEnable(name: string, version: string, config: Option<Json>, now: int, delegate: Option<string>)
    | RequestDisable(target: string)
    | TmpStep(written: bool)
    | RenameStep(renamed: bool)
    | AdminSwapped
    | QuerySwapped
    | Crash

  predicate At(m: Machine, stage: Stage) {
    m.process.Up? && m.process.stage == stage
  }

  ghost predicate Enabled(m: Machine, e: Event) {
    match e
    case Start(_) => m.process.Down?
    case RequestEnable(_, _, _, _, _) => At(m, Ready)
    case RequestDisable(_) => At(m, Ready)
    case TmpStep(_) => At(m, WriteTmp)
    case RenameStep(_) => At(m, RenameTmp)
    case AdminSwapped => At(m, SwapAdmin)
    case QuerySwapped => At(m, SwapQuery)
    case Crash => m.process.Up?
  }

  ghost function Accepted(m: Machine, next: Result<States, CapabilityError>): Machine
    requires m.process.Up?
  {
    if next.Err? then m else m.(process := m.process.(states := next.value, stage := WriteTmp))
  }

  ghost function Next(m: Machine, e: Event): Machine
    requires Enabled(m, e)
  {
    var p := m.process;
    match e
    case Start(host) =>
      var live := Started(host, m.disk);
      m.(failures := 0, process := Up(host, live.states, live.admin, live.query, Ready))
    case RequestEnable(name, version, config, now, delegate) =>
      Accepted(m, EnableIn(p.host, p.states, name, version, config, now, delegate))
    case RequestDisable(name) => Accepted(m, DisableIn(p.states, name))
    case TmpStep(written) =>
      if written then m.(tmp := Some(p.states), process := p.(stage := RenameTmp))
      else m.(tmp := None, failures := m.failures + 1, process := p.(stage := Ready))
    case RenameStep(renamed) =>
      if renamed && m.tmp.Some? then
        m.(disk := m.tmp.value, tmp := None, lastSaved := p.states, failures := 0, process := p.(stage := SwapAdmin))
      else m.(failures := m.failures + 1, process := p.(stage := Ready))
    case AdminSwapped =>
      m.(process := p.(admin := Compose(p.host.base, p.host.available, p.states, true), stage := SwapQuery))
    case QuerySwapped =>
      m.(process := p.(query := Compose(p.host.baseQuery, p.host.available, p.states, false), stage := Ready))
    case Crash => m.(process := Down)
  }

  ghost predicate Run(m: Machine, es: seq<Event>)
    decreases |es|
  {
    es != [] ==> Enabled(m, es[0]) && Run(Next(m, es[0]), es[1..])
  }

  ghost function Final(m: Machine, es: seq<Event>): Machine
    requires Run(m, es)
    decreases |es|
  {
    if es == [] then m else Final(Next(m, es[0]), es[1..])
  }

  ghost predicate Initial(m: Machine) {
    m.process.Down? && m.lastSaved == m.disk
  }

  ghost predicate ServesAdmin(p: Process, states: States)
    requires p.Up?
  {
    p.admin == Compose(p.host.base, p.host.available, states, true)
  }

  ghost predicate ServesQuery(p: Process, states: States)
    requires p.Up?
  {
    p.query == Compose(p.host.baseQuery, p.host.available, states, false)
  }

  ghost predicate Inv(m: Machine) {
    && m.disk == m.lastSaved
    && (m.process.Up? ==>
          match m.process.stage
          case Ready => ServesAdmin(m.process, m.disk) && ServesQuery(m.process, m.disk)
          case WriteTmp => ServesAdmin(m.process, m.disk) && ServesQuery(m.process, m.disk)
          case RenameTmp =>
            ServesAdmin(m.process, m.disk) && ServesQuery(m.process, m.disk) && m.tmp == Some(m.process.states)
          case SwapAdmin => m.process.states == m.disk
          case SwapQuery => m.process.states == m.disk && ServesAdmin(m.process, m.disk))
  }

  lemma InvStep(m: Machine, e: Event)
    requires Inv(m) && Enabled(m, e)
    ensures Inv(Next(m, e))
  {
  }

  lemma {:induction false} InvRun(m: Machine, es: seq<Event>)
    requires Inv(m) && Run(m, es)
    ensures Inv(Final(m, es))
    decreases |es|
  {
    if es != [] {
      InvStep(m, es[0]);
      InvRun(Next(m, es[0]), es[1..]);
    }
  }

  /**
   * Whatever failed or crashed on the way: when no request is under way, both live dispatchers
   * are composed from the last state that was saved, and a restart would compose the same.
   */
  lemma LiveDispatchersFollowSavedState(m0: Machine, es: seq<Event>)
    requires Initial(m0) && Run(m0, es)
    ensures var m := Final(m0, es);
      && m.disk == m.lastSaved
      && (At(m, Ready) ==> ServesAdmin(m.process, m.lastSaved) && ServesQuery(m.process, m.lastSaved))
      && (m.process.Up? && m.process.stage in {SwapAdmin, SwapQuery} ==> m.process.states == m.lastSaved)
  {
    InvRun(m0, es);
  }

  /** After a crash anywhere, starting the same host again serves exactly the last saved state. */
  lemma CrashAndRestartConverges(m0: Machine, es: seq<Event>, host: Host)
    requires Initial(m0) && Run(m0, es) && Final(m0, es).process.Up?
    ensures var m := Final(m0, es);
      var again := Next(Next(m, Crash), Start(host));
      again.lastSaved == m.lastSaved && again.process.states == m.lastSaved
      && ServesAdmin(again.process, m.lastSaved) && ServesQuery(again.process, m.lastSaved)
  {
    InvRun(m0, es);
  }

  /** A process that is down, after a crash or not, can be started with any host, and is then ready for requests. */
  lemma StartsReady(m: Machine, host: Host)
    requires m.process.Down?
    ensures Enabled(m, Start(host))
    ensures var p := Next(m, Start(host)).process;
      p.Up? && p.stage.Ready? && p.host == host && p.states == m.disk && ServesAdmin(p, m.disk) && ServesQuery(p, m.disk)
    ensures var p := Next(m, Start(host)); Enabled(p, Crash) && Next(p, Crash).process.Down? && Next(p, Crash).disk == m.disk
  {
  }

  // ------------------------------------------------ memory against the saved state

  /** No failed save: memory is the saved state, but for a change not yet saved. One: it is not. */
  ghost predicate MemoryInv(m: Machine) {
    m.process.Up? ==>
      match m.process.stage
      case Ready =>
        (m.failures == 0 ==> m.process.states == m.disk) && (m.failures == 1 ==> m.process.states != m.disk)
      case WriteTmp => m.failures == 0 ==> m.process.states != m.disk
      case RenameTmp => m.tmp == Some(m.process.states) && (m.failures == 0 ==> m.process.states != m.disk)
      case _ => m.failures == 0 && m.process.states == m.disk
  }

  lemma MemoryStep(m: Machine, e: Event)
    requires MemoryInv(m) && Enabled(m, e)
    ensures MemoryInv(Next(m, e))
  {
    if e.RequestEnable? {
      var r := AskEnable(e.name, e.version, e.config, e.now, e.delegate);
      var next := r.Apply(m.process.host, m.process.states);
      assert next.Ok? ==> next.value != m.process.states;
    } else if e.RequestDisable? {
      var next := AskDisable(e.target).Apply(m.process.host, m.process.states);
      assert next.Ok? ==> next.value != m.process.states;
    }
  }

  lemma {:induction false} MemoryRun(m: Machine, es: seq<Event>)
    requires MemoryInv(m) && Run(m, es)
    ensures MemoryInv(Final(m, es))
    decreases |es|
  {
    if es != [] {
      MemoryStep(m, es[0]);
      MemoryRun(Next(m, es[0]), es[1..]);
    }
  }

  /**
   * At every quiescent point of every run, memory is the saved state if no save has failed since the
   * last one that succeeded or the last start, and is not if exactly one has.
   */
  lemma MemoryIsSavedUnlessFailed(m0: Machine, es: seq<Event>)
    requires Initial(m0) && Run(m0, es) && At(Final(m0, es), Ready)
    ensures var m := Final(m0, es);
      && (m.failures == 0 ==> m.process.states == m.lastSaved)
      && (m.failures == 1 ==> m.process.states != m.lastSaved)
  {
    MemoryRun(m0, es);
    InvRun(m0, es);
  }

  /** Two failed saves decide nothing: disabling an entry and enabling it again unchanged, neither saved, cancel out. */
  lemma TwoFailuresMayCancel(m: Machine, name: string) returns (es: seq<Event>)
    requires At(m, Ready) && m.failures == 0 && IsOn(m.process.states, name)
    requires var def := m.process.host.Lookup(name); def.Some? && ConfigAccepted(def.value, m.process.states[name].config)
    ensures Run(m, es) && At(Final(m, es), Ready)
    ensures Final(m, es).failures == 2 && Final(m, es).process.states == m.process.states && Final(m, es).disk == m.disk
  {
    var entry := m.process.states[name];
    var enable := RequestEnable(name, entry.version, entry.config, entry.enabledAt, entry.delegate);
    var m1 := Next(m, RequestDisable(name));
    var m2 := Next(m1, TmpStep(false));
    var m3 := Next(m2, enable);
    assert m3.process.states == m.process.states;
    es := Prepend(m3, TmpStep(false), []);
    es := Prepend(m2, enable, es);
    es := Prepend(m1, TmpStep(false), es);
    es := Prepend(m, RequestDisable(name), es);
  }

  // ------------------------------------------------ entries of capabilities the host lacks

  ghost predicate Asked(es: seq<Event>, name: string) {
    exists i :: 0 <= i < |es| && es[i] == RequestDisable(name)
  }

  ghost predicate NeverOffered(es: seq<Event>, name: string) {
    forall i :: 0 <= i < |es| && es[i].Start? ==> !es[i].newHost.Offers(name)
  }

  /** The entry is as it was, or, if somebody asked, merely switched off. */
  ghost predicate KeptIn(states: States, name: string, entry: CapabilityState, asked: bool) {
    name in states && (states[name] == entry || (asked && states[name] == entry.(enabled := false)))
  }

  ghost predicate Kept(m: Machine, name: string, entry: CapabilityState, asked: bool) {
    && KeptIn(m.disk, name, entry, asked)
    && (m.process.Up? ==> KeptIn(m.process.states, name, entry, asked) && !m.process.host.Offers(name))
    && (At(m, RenameTmp) ==> m.tmp == Some(m.process.states))
  }

  lemma KeptStep(m: Machine, e: Event, name: string, entry: CapabilityState, asked: bool)
    requires Kept(m, name, entry, asked) && Enabled(m, e)
    requires e == RequestDisable(name) ==> asked
    requires e.Start? ==> !e.newHost.Offers(name)
    ensures Kept(Next(m, e), name, entry, asked)
  {
    if e.RequestEnable? {
      var next := EnableIn(m.process.host, m.process.states, e.name, e.version, e.config, e.now, e.delegate);
      assert e.name == name ==> next == Err(UnknownCapability);
    }
  }

  /** A saved entry no host in the run offers outlives every save; only an explicit disable can switch it off. */
  lemma {:induction false} ForeignEntriesSurvive(m: Machine, es: seq<Event>, name: string,
                                                 entry: CapabilityState, asked: bool)
    requires Kept(m, name, entry, asked) && Run(m, es) && NeverOffered(es, name)
    requires Asked(es, name) ==> asked
    ensures Kept(Final(m, es), name, entry, asked)
    decreases |es|
  {
    if es != [] {
      assert es[0] == RequestDisable(name) ==> Asked(es, name);
      KeptStep(m, es[0], name, entry, asked);
      forall i | 0 <= i < |es[1..]|
        ensures es[1..][i] == es[i + 1]
      {
      }
      if Asked(es[1..], name) {
        var i :| 0 <= i < |es[1..]| && es[1..][i] == RequestDisable(name);
        assert es[i + 1] == RequestDisable(name);
      }
      ForeignEntriesSurvive(Next(m, es[0]), es[1..], name, entry, asked);
    }
  }

  /** From start-up on: what was saved for an unknown capability is still saved at the end. */
  lemma UnknownCapabilitiesSurvive(m0: Machine, es: seq<Event>, name: string)
    requires Initial(m0) && Run(m0, es) && NeverOffered(es, name) && name in m0.disk
    ensures KeptIn(Final(m0, es).lastSaved, name, m0.disk[name], Asked(es, name))
  {
    ForeignEntriesSurvive(m0, es, name, m0.disk[name], Asked(es, name));
    InvRun(m0, es);
  }

  /** The steps of one undisturbed request do together what the set's `enable` and `disable` do. */
  lemma UndisturbedRequest(m: Machine, e: Event, end: SaveEnd) returns (steps: seq<Event>)
    requires m.process.Up? && m.process.stage.Ready? && (e.RequestEnable? || e.RequestDisable?)
    ensures Run(m, steps) && steps != [] && steps[0] == e
    ensures var next := if e.RequestEnable?
                  then EnableIn(m.process.host, m.process.states, e.name, e.version, e.config, e.now, e.delegate)
                  else DisableIn(m.process.states, e.target);
      At(Final(m, steps), Ready) && LiveOf(Final(m, steps)) == Change(m.process.host, LiveOf(m), next, end).0
  {
    var m1 := Next(m, e);
    if At(m1, WriteTmp) {
      steps := SaveSteps(m1, end);
    } else {
      steps := [];
    }
    steps := Prepend(m, e, steps);
  }

  ghost function LiveOf(m: Machine): Live
    requires m.process.Up?
  {
    Live(m.process.states, m.disk, m.process.admin, m.process.query)
  }

  /** From the save onwards. */
  lemma SaveSteps(m: Machine, end: SaveEnd) returns (steps: seq<Event>)
    requires At(m, WriteTmp)
    ensures Run(m, steps) && At(Final(m, steps), Ready)
    ensures LiveOf(Final(m, steps)) == Commit(m.process.host, LiveOf(m), m.process.states, end).0
    ensures Final(m, steps).tmp == if end.RenameFails? then Some(m.process.states) else None
  {
    match end {
      case TmpWriteFails =>
        steps := Prepend(m, TmpStep(false), []);
      case RenameFails =>
        steps := Prepend(Next(m, TmpStep(true)), RenameStep(false), []);
        steps := Prepend(m, TmpStep(true), steps);
      case SaveDone =>
        var m2 := Next(m, TmpStep(true));
        var m3 := Next(m2, RenameStep(true));
        steps := Prepend(Next(m3, AdminSwapped), QuerySwapped, []);
        steps := Prepend(m3, AdminSwapped, steps);
        steps := Prepend(m2, RenameStep(true), steps);
        steps := Prepend(m, TmpStep(true), steps);
    }
  }

  lemma Prepend(m: Machine, e: Event, rest: seq<Event>) returns (es: seq<Event>)
    requires Enabled(m, e) && Run(Next(m, e), rest)
    ensures es == [e] + rest && Run(m, es) && Final(m, es) == Final(Next(m, e), rest)
  {
    es := [e] + rest;
    assert es[1..] == rest;
  }
}
