/** Pluggable capabilities and the live dispatchers composed from them (trust-registry/src/capabilities). */
module Capabilities {
  import opened Domain
  import opened Tasks

  datatype CapabilityState = CapabilityState(
    version: string,
    enabled: bool,
    config: Option<Json>,
    enabledAt: int,
    delegate: Option<string>)

  type States = map<string, CapabilityState>

  /** What a dispatcher runs for a task type. */
  datatype Handler =
    | RecordHandler
    | ListHandler
    | EnableHandler
    | DisableHandler
    | GrantHandler(authority: Option<string>)
    | RevokeHandler(authority: Option<string>)
    | OtherHandler(capability: string, entry: CapabilityState)

  /** A dispatcher: registering a task type again replaces its handler. */
  type Dispatcher = map<string, Handler>

  /** A capability compiled into the host: its manifest, its config check and the registrations it contributes. */
  datatype Definition = Definition(
    name: string,
    manifest: Json,
    validate: Option<Json -> bool>,
    contribute: CapabilityState -> Dispatcher)

  /** Definitions in the ascending order of their names, and the always-on registrations. */
  datatype Host = Host(available: seq<Definition>, base: Dispatcher, baseQuery: Dispatcher) {
    predicate Offers(name: string) {
      exists i :: 0 <= i < |available| && available[i].name == name
    }

    function Lookup(name: string): Option<Definition> {
      LookupIn(available, name)
    }
  }

  function LookupIn(defs: seq<Definition>, name: string): (d: Option<Definition>)
    ensures d.Some? <==> exists i :: 0 <= i < |defs| && defs[i].name == name
    ensures d.Some? ==> d.value in defs && d.value.name == name
  {
    if defs == [] then None
    else if defs[0].name == name then Some(defs[0])
    else
      assert forall i :: 0 < i < |defs| ==> defs[i] == defs[1..][i - 1];
      LookupIn(defs[1..], name)
  }

  // ---------------------------------------------------------------- composition

  function Governance(admin: bool): Dispatcher {
    if admin then
      map[CAPABILITY_LIST := ListHandler, CAPABILITY_ENABLE := EnableHandler, CAPABILITY_DISABLE := DisableHandler]
    else
      map[CAPABILITY_LIST := ListHandler]
  }

  predicate On(def: Definition, states: States) {
    def.name in states && states[def.name].enabled
  }

  function Registered(d: Dispatcher, defs: seq<Definition>, states: States): Dispatcher {
    if defs == [] then d
    else
      var before, def := Registered(d, defs[..|defs| - 1], states), defs[|defs| - 1];
      if On(def, states) then before + def.contribute(states[def.name]) else before
  }

  /** `compose`: base, then the governance surface, then every enabled capability in order. */
  function Compose(base: Dispatcher, defs: seq<Definition>, states: States, admin: bool): Dispatcher {
    Registered(base + Governance(admin), defs, states)
  }

  method ComposeLive(base: Dispatcher, defs: seq<Definition>, states: States, admin: bool) returns (d: Dispatcher)
    ensures d == Compose(base, defs, states, admin)
  {
    d := base;
    d := d[CAPABILITY_LIST := ListHandler];
    if admin {
      d := d[CAPABILITY_ENABLE := EnableHandler];
      d := d[CAPABILITY_DISABLE := DisableHandler];
    }
    assert d == base + Governance(admin);
    for i := 0 to |defs|
      invariant d == Registered(base + Governance(admin), defs[..i], states)
    {
      assert defs[..i + 1][..i] == defs[..i];
      if defs[i].name in states && states[defs[i].name].enabled {
        d := d + defs[i].contribute(states[defs[i].name]);
      }
    }
    assert defs[..|defs|] == defs;
  }

  /** The definition is on and registers this task type. */
  predicate Serves(def: Definition, states: States, slug: string) {
    On(def, states) && slug in def.contribute(states[def.name])
  }

  predicate Unserved(defs: seq<Definition>, states: States, slug: string) {
    forall i :: 0 <= i < |defs| ==> !Serves(defs[i], states, slug)
  }

  /** The last enabled capability that registers a type answers it. */
  lemma {:induction false} LastRegistrationAnswers(base: Dispatcher, defs: seq<Definition>, states: States, admin: bool,
                                                   slug: string, i: nat)
    requires i < |defs| && Serves(defs[i], states, slug) && Unserved(defs[i + 1..], states, slug)
    ensures var d := Compose(base, defs, states, admin);
      slug in d && d[slug] == defs[i].contribute(states[defs[i].name])[slug]
    decreases |defs|
  {
    var n := |defs| - 1;
    if i < n {
      var rest := defs[i + 1..];
      assert !Serves(rest[n - i - 1], states, slug);
      assert defs[..n][i + 1..] == rest[..n - i - 1];
      LastRegistrationAnswers(base, defs[..n], states, admin, slug, i);
    }
  }

  /** A type no enabled capability registers is answered by the governance surface, else the base, else nobody. */
  lemma {:induction false} UnservedFallsThrough(base: Dispatcher, defs: seq<Definition>, states: States, admin: bool,
                                                slug: string)
    requires Unserved(defs, states, slug)
    ensures var d := Compose(base, defs, states, admin);
      if slug in Governance(admin) then slug in d && d[slug] == Governance(admin)[slug]
      else if slug in base then slug in d && d[slug] == base[slug]
      else slug !in d
    decreases |defs|
  {
    if defs != [] {
      var n := |defs| - 1;
      assert !Serves(defs[n], states, slug);
      UnservedFallsThrough(base, defs[..n], states, admin, slug);
    }
  }

  /** The read-only surface lacks nothing but enable and disable. */
  lemma SurfacesAgree(base: Dispatcher, defs: seq<Definition>, states: States, slug: string)
    requires slug !in {CAPABILITY_ENABLE, CAPABILITY_DISABLE}
    ensures var full, query := Compose(base, defs, states, true), Compose(base, defs, states, false);
      (slug in full <==> slug in query) && (slug in full ==> full[slug] == query[slug])
  {
    if Unserved(defs, states, slug) {
      UnservedFallsThrough(base, defs, states, true, slug);
      UnservedFallsThrough(base, defs, states, false, slug);
    } else {
      var i := LastServer(defs, states, slug);
      LastRegistrationAnswers(base, defs, states, true, slug, i);
      LastRegistrationAnswers(base, defs, states, false, slug, i);
    }
  }

  lemma {:induction false} LastServer(defs: seq<Definition>, states: States, slug: string) returns (i: nat)
    requires !Unserved(defs, states, slug)
    ensures i < |defs| && Serves(defs[i], states, slug) && Unserved(defs[i + 1..], states, slug)
    decreases |defs|
  {
    var n := |defs| - 1;
    if Serves(defs[n], states, slug) {
      i := n;
    } else {
      var k :| 0 <= k < |defs| && Serves(defs[k], states, slug);
      assert Serves(defs[..n][k], states, slug);
      i := LastServer(defs[..n], states, slug);
      assert defs[i + 1..] == defs[..n][i + 1..] + [defs[n]];
    }
  }

  // ---------------------------------------------------------------- enable and disable

  datatype CapabilityError = UnknownCapability | AlreadyEnabled | NotEnabled | ConfigInvalid | Storage

  predicate IsOn(states: States, name: string) {
    name in states && states[name].enabled
  }

  predicate ConfigAccepted(def: Definition, config: Option<Json>) {
    def.validate.None? || def.validate.value(if config.Some? then config.value else EMPTY_OBJECT)
  }

  /** The checks of `enable` and the in-memory state it goes on to save. */
  function EnableIn(host: Host, states: States, name: string, version: string, config: Option<Json>, now: int,
                    delegate: Option<string>): Result<States, CapabilityError>
  {
    match host.Lookup(name)
    case None => Err(UnknownCapability)
    case Some(def) =>
      if !ConfigAccepted(def, config) then Err(ConfigInvalid)
      else if IsOn(states, name) then Err(AlreadyEnabled)
      else Ok(states[name := CapabilityState(version, true, config, now, delegate)])
  }

  /** The check of `disable`: it asks the state only, so a capability the host lacks can be disabled. */
  function DisableIn(states: States, name: string): Result<States, CapabilityError> {
    if IsOn(states, name) then Ok(states[name := states[name].(enabled := false)]) else Err(NotEnabled)
  }

  /**
   * Enabling is accepted exactly when the host has the capability, its check, if it has one, accepts the
   * config, an absent one read as the empty object, and it is not on; else the first of these answers.
   */
  lemma EnableAcceptedIff(host: Host, states: States, name: string, version: string, config: Option<Json>, now: int,
                          delegate: Option<string>)
    ensures var next := EnableIn(host, states, name, version, config, now, delegate);
      var def := host.Lookup(name);
      var accepted := def.Some? ==> def.value.validate.Some? ==>
        def.value.validate.value(match config { case Some(given) => given case None => Obj(map[]) });
      && (next.Ok? <==> host.Offers(name) && accepted && !(name in states && states[name].enabled))
      && (next == Err(UnknownCapability) <==> !host.Offers(name))
      && (next == Err(ConfigInvalid) <==> host.Offers(name) && !accepted)
      && (next == Err(AlreadyEnabled) <==> host.Offers(name) && accepted && name in states && states[name].enabled)
      && (next.Ok? ==> next.value == states[name := CapabilityState(version, true, config, now, delegate)])
  {
  }

  /** How a save can end: the temp file cannot be written, or not renamed, or the state is saved. */
  datatype SaveEnd = TmpWriteFails | RenameFails | SaveDone

  class FileCapabilityStore {
    /** The saved state, empty when there is no file yet. */
    var saved: States
    /** There is a file, but it cannot be read or does not parse. */
    var corrupt: bool
    var tmp: Option<States>

    constructor (initial: States, corrupt: bool)
      ensures saved == initial && this.corrupt == corrupt && tmp == None
    {
      saved := initial;
      this.corrupt := corrupt;
      tmp := None;
    }

    method Load() returns (loaded: Option<States>)
      ensures loaded == if corrupt then None else Some(saved)
    {
      loaded := if corrupt then None else Some(saved);
    }

    method Save(states: States, end: SaveEnd) returns (ok: bool)
      modifies this
      ensures ok <==> end.SaveDone?
      ensures saved == if ok then states else old(saved)
      ensures corrupt <==> !ok && old(corrupt)
    {
      if end.TmpWriteFails? {
        return false;
      }
      tmp := Some(states);
      if end.RenameFails? {
        return false;
      }
      saved := tmp.value;
      corrupt := false;
      tmp := None;
      ok := true;
    }
  }

  /** The live part of a capability set: in-memory state, saved state, and both dispatchers. */
  datatype Live = Live(states: States, saved: States, admin: Dispatcher, query: Dispatcher)

  function Started(host: Host, saved: States): Live {
    Live(saved, saved, Compose(host.base, host.available, saved, true),
         Compose(host.baseQuery, host.available, saved, false))
  }

  /** The rest of `enable` and `disable`: the state is already changed when the save is tried. */
  function Commit(host: Host, live: Live, states: States, end: SaveEnd): (Live, Option<CapabilityError>) {
    if end.SaveDone? then (Started(host, states), None)
    else (live.(states := states), Some(Storage))
  }

  function Change(host: Host, live: Live, next: Result<States, CapabilityError>, end: SaveEnd)
    : (Live, Option<CapabilityError>)
  {
    match next
    case Err(e) => (live, Some(e))
    case Ok(states) => Commit(host, live, states, end)
  }

  /** `CapabilitySet`. */
  class CapabilitySet {
    const host: Host
    const store: FileCapabilityStore
    var states: States
    var admin: Dispatcher
    var query: Dispatcher

    ghost function View(): Live
      reads this, store
    {
      Live(states, store.saved, admin, query)
    }

    constructor (host: Host, store: FileCapabilityStore)
      ensures this.host == host && this.store == store
      ensures View() == Started(host, store.saved)
    {
      this.host := host;
      this.store := store;
      var loaded := store.saved;
      states := loaded;
      new;
      admin := ComposeLive(host.base, host.available, loaded, true);
      query := ComposeLive(host.baseQuery, host.available, loaded, false);
    }

    /** `CapabilitySet::new`: fails, and with it the start of the server, on a state file it cannot load. */
    static method New(host: Host, store: FileCapabilityStore) returns (capabilities: CapabilitySet?)
      ensures capabilities == null <==> store.corrupt
      ensures capabilities != null ==> fresh(capabilities) && capabilities.host == host && capabilities.store == store
      ensures capabilities != null ==> capabilities.View() == Started(host, store.saved)
    {
      var loaded := store.Load();
      if loaded.None? {
        return null;
      }
      capabilities := new CapabilitySet(host, store);
    }

    method Rebuild()
      modifies this`admin, this`query
      ensures admin == Compose(host.base, host.available, states, true)
      ensures query == Compose(host.baseQuery, host.available, states, false)
    {
      admin := ComposeLive(host.base, host.available, states, true);
      query := ComposeLive(host.baseQuery, host.available, states, false);
    }

    method Enable(name: string, version: string, config: Option<Json>, now: int, delegate: Option<string>, end: SaveEnd)
      returns (error: Option<CapabilityError>)
      modifies this, store
      ensures (View(), error) ==
        Change(host, old(View()), EnableIn(host, old(states), name, version, config, now, delegate), end)
    {
      var def := host.Lookup(name);
      if def.None? {
        return Some(UnknownCapability);
      }
      if !ConfigAccepted(def.value, config) {
        return Some(ConfigInvalid);
      }
      if IsOn(states, name) {
        return Some(AlreadyEnabled);
      }
      states := states[name := CapabilityState(version, true, config, now, delegate)];
      var ok := store.Save(states, end);
      if !ok {
        return Some(Storage);
      }
      Rebuild();
      error := None;
    }

    method Disable(name: string, end: SaveEnd) returns (error: Option<CapabilityError>)
      modifies this, store
      ensures (View(), error) == Change(host, old(View()), DisableIn(old(states), name), end)
    {
      if !IsOn(states, name) {
        return Some(NotEnabled);
      }
      states := states[name := states[name].(enabled := false)];
      var ok := store.Save(states, end);
      if !ok {
        return Some(Storage);
      }
      Rebuild();
      error := None;
    }

    /** Manifests with what memory holds for them, in host order; only enabled ones unless `includeAvailable`. */
    method ListAll(includeAvailable: bool) returns (entries: seq<Listed>)
      ensures entries == Listing(host.available, states, includeAvailable)
    {
      entries := [];
      for i := 0 to |host.available|
        invariant entries == Listing(host.available[..i], states, includeAvailable)
      {
        assert host.available[..i + 1][..i] == host.available[..i];
        var def := host.available[i];
        if IsOn(states, def.name) || includeAvailable {
          entries := entries + [ListedAs(def, states)];
        }
      }
      assert host.available[..|host.available|] == host.available;
    }
  }

  /** One capability of the host, with the state memory holds for it if any. */
  datatype Listed = Listed(name: string, manifest: Json, state: Option<CapabilityState>) {
    predicate On() {
      state.Some? && state.value.enabled
    }
  }

  function ListedAs(def: Definition, states: States): Listed {
    Listed(def.name, def.manifest, if def.name in states then Some(states[def.name]) else None)
  }

  function Listing(defs: seq<Definition>, states: States, includeAvailable: bool): seq<Listed> {
    if defs == [] then []
    else
      var before, def := Listing(defs[..|defs| - 1], states, includeAvailable), defs[|defs| - 1];
      if IsOn(states, def.name) || includeAvailable then before + [ListedAs(def, states)] else before
  }

  /** The listing answers from memory: it shows exactly the host's capabilities, those on there or all. */
  lemma {:induction false} ListingShows(defs: seq<Definition>, states: States, includeAvailable: bool, e: Listed)
    ensures e in Listing(defs, states, includeAvailable) <==>
      (exists i :: 0 <= i < |defs| && ListedAs(defs[i], states) == e) && (e.On() || includeAvailable)
    ensures e in Listing(defs, states, includeAvailable) ==> e.On() == IsOn(states, e.name)
    decreases |defs|
  {
    if defs != [] {
      var init := defs[..|defs| - 1];
      ListingShows(init, states, includeAvailable, e);
      assert forall i :: 0 <= i < |init| ==> init[i] == defs[i];
    }
  }

  /** An entry carries the host's manifest and memory's state for its name, and capabilities stand in the host's order. */
  lemma {:induction false} ListsInOrder(defs: seq<Definition>, states: States, i: nat)
    requires i < |defs|
    ensures |Listing(defs, states, true)| == |defs|
    ensures Listing(defs, states, true)[i] == Listed(defs[i].name, defs[i].manifest,
      if defs[i].name in states then Some(states[defs[i].name]) else None)
    decreases |defs|
  {
    if |defs| > 1 {
      ListsInOrder(defs[..|defs| - 1], states, if i < |defs| - 1 then i else 0);
    } else {
      assert Listing(defs[..|defs| - 1], states, true) == [];
    }
  }

  /** What enabling or disabling asks for; every accepted request changes the state it starts from. */
  datatype Request =
    | AskEnable(name: string, version: string, config: Option<Json>, now: int, delegate: Option<string>)
    | AskDisable(name: string)
  {
    function Apply(host: Host, states: States): (next: Result<States, CapabilityError>)
      ensures next.Ok? ==> name in next.value && IsOn(next.value, name) == AskEnable? && next.value != states
      ensures next.Ok? ==> next.value - {name} == states - {name}
    {
      match this
      case AskEnable(_, version, config, now, delegate) => EnableIn(host, states, name, version, config, now, delegate)
      case AskDisable(_) => DisableIn(states, name)
    }
  }

  function Requested(host: Host, live: Live, r: Request, end: SaveEnd): (Live, Option<CapabilityError>) {
    Change(host, live, r.Apply(host, live.states), end)
  }

  /**
   * From memory that is the saved state, one request leaves it so exactly when it was refused or its
   * save succeeded; and it is answered as a success exactly when it was accepted and saved.
   */
  lemma MemoryStaysSavedIff(host: Host, live: Live, r: Request, end: SaveEnd)
    requires live.states == live.saved
    ensures var (after, error) := Requested(host, live, r, end);
      && (after.states == after.saved <==> r.Apply(host, live.states).Err? || end.SaveDone?)
      && (error.None? <==> r.Apply(host, live.states).Ok? && end.SaveDone?)
  {
    var next := r.Apply(host, live.states);
    assert next.Ok? ==> next.value != live.states;
  }

  /**
   * A failed save strands the change: memory shows it done and a retry is refused, while what is
   * saved and what is served stay as they were.
   */
  lemma FailedSaveStrands(host: Host, live: Live, r: Request, end: SaveEnd)
    requires r.Apply(host, live.states).Ok? && !end.SaveDone?
    ensures var (after, error) := Requested(host, live, r, end);
      && error == Some(Storage)
      && IsOn(after.states, r.name) == r.AskEnable? && after.states - {r.name} == live.states - {r.name}
      && after.saved == live.saved && after.admin == live.admin && after.query == live.query
      && r.Apply(host, after.states) == Err(if r.AskEnable? then AlreadyEnabled else NotEnabled)
  {
  }

  /**
   * A change stranded by a failed save is published by the next save that succeeds: whatever memory
   * holds for every capability the second request does not name is saved and served.
   */
  lemma NextSavePublishesMemory(host: Host, live: Live, r: Request, q: Request, end: SaveEnd)
    requires r.Apply(host, live.states).Ok? && !end.SaveDone?
    requires q.Apply(host, Requested(host, live, r, end).0.states).Ok?
    ensures var (stranded, failed) := Requested(host, live, r, end);
      var (after, error) := Requested(host, stranded, q, SaveDone);
      && failed == Some(Storage) && error == None
      && stranded.saved == live.saved && stranded.admin == live.admin && stranded.query == live.query
      && after.saved == after.states && after.saved - {q.name} == stranded.states - {q.name}
      && (q.name != r.name ==> r.name in after.saved && IsOn(after.saved, r.name) == r.AskEnable?)
      && after == Started(host, after.saved)
  {
    var stranded := Requested(host, live, r, end).0;
    var after := Requested(host, stranded, q, SaveDone).0;
    assert r.name in stranded.states;
    if q.name != r.name {
      assert (after.saved - {q.name})[r.name] == (stranded.states - {q.name})[r.name];
    }
  }

  /** The types a stranded enable registers are answered by it from then on, unless a later capability registers them too. */
  lemma StrandedEnableIsServed(host: Host, live: Live, r: Request, q: Request, end: SaveEnd, i: nat, slug: string)
    requires r.AskEnable? && r.Apply(host, live.states).Ok? && !end.SaveDone?
    requires q.Apply(host, Requested(host, live, r, end).0.states).Ok? && q.name != r.name
    requires i < |host.available| && host.available[i].name == r.name
    requires var saved := Requested(host, Requested(host, live, r, end).0, q, SaveDone).0.saved;
      r.name in saved && slug in host.available[i].contribute(saved[r.name]) && Unserved(host.available[i + 1..], saved, slug)
    ensures var after := Requested(host, Requested(host, live, r, end).0, q, SaveDone).0;
      slug in after.admin && after.admin[slug] == host.available[i].contribute(after.saved[r.name])[slug]
  {
    NextSavePublishesMemory(host, live, r, q, end);
    var saved := Requested(host, Requested(host, live, r, end).0, q, SaveDone).0.saved;
    LastRegistrationAnswers(host.base, host.available, saved, true, slug, i);
  }
}
