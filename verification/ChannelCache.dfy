/**
 The agent's channel cache: backend configuration reloaded when the file's mtime
 changes, one open channel per backend, flushed on reload and evicted on failure.
 */
module ChannelCache {
  import opened Wrappers

  /** One configured backend; `details` stands for host, port and verifier settings. */
  datatype Entry = Entry(backendId: string, details: string)

  datatype Config = Config(defaultBackend: string, backends: seq<Entry>)

  /** Loading a file: not JSON, refused by validation (an exception), or a configuration. */
  datatype Contents = Unparsable | Refused | Good(config: Config)

  datatype File = Missing | Present(mtime: int, contents: Contents)

  datatype Channel = Channel(number: nat, builtFrom: Entry)

  datatype State = State(
    mtime: int, config: Option<Config>, cache: map<string, Channel>, open: set<nat>, created: nat)

  const START := State(0, None, map[], {}, 0)

  // ----- lookup -----

  function FirstMatch(backends: seq<Entry>, id: string): Option<Entry> {
    if backends == [] then None
    else if backends[0].backendId == id then Some(backends[0])
    else FirstMatch(backends[1..], id)
  }

  /** The entry a request resolves to: the named backend, or the default one. */
  function Resolve(config: Config, requested: string): Option<Entry> {
    var id := if requested == "" then config.defaultBackend else requested;
    if id == "" then None else FirstMatch(config.backends, id)
  }

  lemma {:induction false} FirstMatchHasId(backends: seq<Entry>, id: string)
    ensures FirstMatch(backends, id).Some? ==> FirstMatch(backends, id).value.backendId == id
  {
    if backends == [] {
    } else {
      FirstMatchHasId(backends[1..], id);
    }
  }

  // ----- the reload as a function of the state -----

  function Numbers(cache: map<string, Channel>): set<nat> {
    set id | id in cache :: cache[id].number
  }

  predicate Changed(st: State, file: File) {
    file.Present? && file.mtime != st.mtime
  }

  /** The state after the file has been looked at. */
  function Reload(st: State, file: File): State {
    if !Changed(st, file) then st
    else match file.contents
      case Refused => st
      case Unparsable => st.(config := None, mtime := file.mtime)
      case Good(config) =>
        if st.config.Some?
        then State(file.mtime, Some(config), map[], st.open - Numbers(st.cache), st.created)
        else st.(config := Some(config), mtime := file.mtime)
  }

  /** What the reload returns; nothing when the file is gone, unreadable or refused. */
  function Loaded(st: State, file: File): Option<Config> {
    if file.Missing? || (Changed(st, file) && file.contents.Refused?) then None else Reload(st, file).config
  }

  function Found(st: State, file: File, requested: string): Option<Entry> {
    match Loaded(st, file)
    case None => None
    case Some(config) => Resolve(config, requested)
  }

  /** A lookup that opens a channel when none is cached and the connection succeeds. */
  function Connect(st: State, file: File, requested: string, connects: bool): State {
    var now := Reload(st, file);
    match Found(st, file, requested)
    case None => now
    case Some(entry) =>
      if entry.backendId in now.cache || !connects then now
      else now.(cache := now.cache[entry.backendId := Channel(now.created, entry)],
                open := now.open + {now.created},
                created := now.created + 1)
  }

  function Evict(st: State, file: File, requested: string): State {
    var now := Reload(st, file);
    match Found(st, file, requested)
    case None => now
    case Some(entry) =>
      if entry.backendId !in now.cache then now
      else now.(cache := now.cache - {entry.backendId}, open := now.open - {now.cache[entry.backendId].number})
  }

  // ----- coherence -----

  /** The open channels are exactly the cached ones, numbered apart, each built from an entry of its own id. */
  predicate ChannelsOk(st: State) {
    && st.open == Numbers(st.cache)
    && (forall id | id in st.cache ::
          id != "" && st.cache[id].number < st.created && st.cache[id].builtFrom.backendId == id)
    && (forall id, jd | id in st.cache && jd in st.cache && id != jd :: st.cache[id].number != st.cache[jd].number)
  }

  /** In the configuration in force, every cached id resolves to nothing or to the entry its channel was built from. */
  predicate NothingStale(st: State) {
    st.config.Some? ==>
      forall id | id in st.cache ::
        var entry := FirstMatch(st.config.value.backends, id);
        entry.None? || entry.value == st.cache[id].builtFrom
  }

  /** There is a configuration whose replacement would flush, or nothing to flush. */
  predicate Guarded(st: State) {
    st.config.Some? || st.cache == map[]
  }

  predicate Inv(st: State) {
    ChannelsOk(st) && NothingStale(st) && Guarded(st)
  }

  /** Unparsable text is loaded while channels are cached: the one reload that forgets to flush. */
  predicate Forgets(st: State, file: File) {
    Changed(st, file) && file.contents.Unparsable? && st.cache != map[]
  }

  /** If a lookup on this file yields a channel, it was built from the entry the lookup resolved to. */
  predicate ServedFresh(st: State, file: File, requested: string) {
    var entry := Found(st, file, requested);
    var cache := Reload(st, file).cache;
    entry.Some? && entry.value.backendId in cache ==> cache[entry.value.backendId].builtFrom == entry.value
  }

  /** Whatever readable file the next lookup sees, changed or not, what it serves is fresh, exactly under two conditions. */
  lemma NextLookupFreshIff(st: State)
    requires ChannelsOk(st)
    ensures (forall mtime: int, config: Config, requested: string :: ServedFresh(st, Present(mtime, Good(config)), requested))
            <==> Guarded(st) && NothingStale(st)
    ensures Guarded(st) && NothingStale(st) ==> forall file: File, requested: string :: ServedFresh(st, file, requested)
  {
    if !Guarded(st) {
      var file, requested := UnguardedServesStale(st);
    } else if !NothingStale(st) {
      var file, requested := UnchangedServesStale(st);
    } else {
      forall file: File, requested: string ensures ServedFresh(st, file, requested) {
        FoundHasId(st, file, requested);
      }
    }
  }

  /** Without a guard, a file that replaces a cached backend is served from the old channel. */
  lemma UnguardedServesStale(st: State) returns (file: File, requested: string)
    requires ChannelsOk(st) && !Guarded(st)
    ensures file.Present? && file.contents.Good? && file.mtime != st.mtime && !ServedFresh(st, file, requested)
  {
    requested :| requested in st.cache;
    var replaced := Entry(requested, st.cache[requested].builtFrom.details + "!");
    assert |replaced.details| == |st.cache[requested].builtFrom.details| + 1;
    file := Present(st.mtime + 1, Good(Config(requested, [replaced])));
    assert Found(st, file, requested) == Some(replaced);
  }

  /** A stale channel goes on being served from the file that is already loaded. */
  lemma UnchangedServesStale(st: State) returns (file: File, requested: string)
    requires ChannelsOk(st) && !NothingStale(st)
    ensures st.config.Some? && file == Present(st.mtime, Good(st.config.value)) && !ServedFresh(st, file, requested)
  {
    requested :| requested in st.cache && var entry := FirstMatch(st.config.value.backends, requested);
                                          entry.Some? && entry.value != st.cache[requested].builtFrom;
    file := Present(st.mtime, Good(st.config.value));
    FirstMatchHasId(st.config.value.backends, requested);
  }

  /** A reload keeps the guard exactly when it does not forget to flush. */
  lemma GuardKeptIff(st: State, file: File)
    requires Guarded(st)
    ensures Guarded(Reload(st, file)) <==> !Forgets(st, file)
  {
  }

  lemma ReloadKeeps(st: State, file: File)
    requires Inv(st) && !Forgets(st, file)
    ensures Inv(Reload(st, file))
  {
    GuardKeptIff(st, file);
  }

  /** Channels are accounted for in every reload, also one that forgets to flush. */
  lemma ReloadKeepsChannels(st: State, file: File)
    requires ChannelsOk(st)
    ensures ChannelsOk(Reload(st, file))
  {
  }

  lemma ConnectKeepsChannels(st: State, file: File, requested: string, connects: bool)
    requires ChannelsOk(st)
    ensures ChannelsOk(Connect(st, file, requested, connects))
  {
    hide Reload, Found, Loaded;
    ReloadKeepsChannels(st, file);
    FoundHasId(st, file, requested);
    var now := Reload(st, file);
    var entry := Found(st, file, requested);
    if entry.Some? && entry.value.backendId !in now.cache {
      NumbersAdd(now.cache, entry.value.backendId, Channel(now.created, entry.value));
    }
  }

  lemma EvictKeepsChannels(st: State, file: File, requested: string)
    requires ChannelsOk(st)
    ensures ChannelsOk(Evict(st, file, requested))
  {
    hide Reload, Found, Loaded;
    ReloadKeepsChannels(st, file);
    var now := Reload(st, file);
    var entry := Found(st, file, requested);
    if entry.Some? && entry.value.backendId in now.cache {
      NumbersDrop(now.cache, entry.value.backendId);
    }
  }

  lemma ConnectKeeps(st: State, file: File, requested: string, connects: bool)
    requires Inv(st) && !Forgets(st, file)
    ensures Inv(Connect(st, file, requested, connects))
  {
    hide Reload, Found, Loaded, Forgets, ChannelsOk;
    ReloadKeeps(st, file);
    FoundHasId(st, file, requested);
    ConnectKeepsChannels(st, file, requested, connects);
  }

  lemma EvictKeeps(st: State, file: File, requested: string)
    requires Inv(st) && !Forgets(st, file)
    ensures Inv(Evict(st, file, requested))
  {
    hide Reload, Found, Loaded, Forgets, ChannelsOk;
    ReloadKeeps(st, file);
    FoundHasId(st, file, requested);
    EvictKeepsChannels(st, file, requested);
  }

  lemma NumbersAdd(cache: map<string, Channel>, id: string, channel: Channel)
    requires id !in cache
    ensures Numbers(cache[id := channel]) == Numbers(cache) + {channel.number}
  {
    var after := cache[id := channel];
    assert after[id].number in Numbers(after);
    forall k | k in Numbers(cache) ensures k in Numbers(after) {
      var jd :| jd in cache && cache[jd].number == k;
      assert after[jd].number == k;
    }
  }

  lemma NumbersDrop(cache: map<string, Channel>, id: string)
    requires id in cache
    requires forall a, b | a in cache && b in cache && a != b :: cache[a].number != cache[b].number
    ensures Numbers(cache - {id}) == Numbers(cache) - {cache[id].number}
  {
    var after := cache - {id};
    forall k | k in Numbers(cache) - {cache[id].number} ensures k in Numbers(after) {
      var jd :| jd in cache && cache[jd].number == k;
      assert after[jd].number == k;
    }
  }

  lemma FoundHasId(st: State, file: File, requested: string)
    ensures Found(st, file, requested).Some? ==>
              var config := Loaded(st, file).value;
              var entry := Found(st, file, requested).value;
              entry.backendId != "" && Reload(st, file).config == Some(config) && FirstMatch(config.backends, entry.backendId) == Some(entry)
  {
    if Loaded(st, file).Some? {
      var config := Loaded(st, file).value;
      FirstMatchHasId(config.backends, if requested == "" then config.defaultBackend else requested);
    }
  }

  // ----- what a lookup and an eviction do -----

  /** The entry is the first one with the requested id, or with the default id when none is requested. */
  ghost predicate Picks(config: Config, requested: string, entry: Entry) {
    var id := if requested == "" then config.defaultBackend else requested;
    && id != ""
    && exists k | 0 <= k < |config.backends| ::
         config.backends[k] == entry && entry.backendId == id && forall j | 0 <= j < k :: config.backends[j].backendId != id
  }

  lemma {:induction false} FirstMatchIff(backends: seq<Entry>, id: string, entry: Entry)
    ensures FirstMatch(backends, id) == Some(entry)
            <==> exists k | 0 <= k < |backends| ::
                   backends[k] == entry && entry.backendId == id && forall j | 0 <= j < k :: backends[j].backendId != id
  {
    if backends == [] {
    } else if backends[0].backendId == id {
      assert backends[0] == entry ==> FirstMatch(backends, id) == Some(entry);
    } else {
      FirstMatchIff(backends[1..], id, entry);
      FirstMatchSkips(backends, id, entry);
    }
  }

  lemma FirstMatchSkips(backends: seq<Entry>, id: string, entry: Entry)
    requires backends != [] && backends[0].backendId != id
    ensures (exists k | 0 <= k < |backends| ::
               backends[k] == entry && entry.backendId == id && forall j | 0 <= j < k :: backends[j].backendId != id)
            <==> (exists k | 0 <= k < |backends[1..]| ::
                    backends[1..][k] == entry && entry.backendId == id
                    && forall j | 0 <= j < k :: backends[1..][j].backendId != id)
  {
    var rest := backends[1..];
    if k :| 0 <= k < |rest| && rest[k] == entry && entry.backendId == id && forall j | 0 <= j < k :: rest[j].backendId != id {
      assert backends[k + 1] == entry;
      assert forall j | 0 <= j < k + 1 :: j == 0 || backends[j] == rest[j - 1];
    }
    if k :| 0 <= k < |backends| && backends[k] == entry && entry.backendId == id
            && forall j | 0 <= j < k :: backends[j].backendId != id {
      assert rest[k - 1] == entry;
      assert forall j | 0 <= j < k - 1 :: rest[j] == backends[j + 1];
    }
  }

  /** The configuration a lookup works with: nothing for a missing, refused or unparsable file. */
  lemma LookupLaw(st: State, file: File, requested: string, entry: Entry)
    ensures var unread := file.Missing? || file.mtime == st.mtime || file.contents.Refused?;
            && (unread ==> Reload(st, file) == st)
            && (!unread ==> Reload(st, file).mtime == file.mtime
                            && Reload(st, file).config == (if file.contents.Good? then Some(file.contents.config) else None))
    ensures Found(st, file, requested) == Some(entry)
            <==> && file.Present?
                 && (if file.mtime == st.mtime then st.config.Some? && Picks(st.config.value, requested, entry)
                     else file.contents.Good? && Picks(file.contents.config, requested, entry))
  {
    hide FirstMatch;
    if Loaded(st, file).Some? {
      var config := Loaded(st, file).value;
      FirstMatchIff(config.backends, if requested == "" then config.defaultBackend else requested, entry);
    }
  }

  /** A lookup that connects ends with a channel for its backend: the one cached, or a new one, and touches no other. */
  lemma ConnectLaw(st: State, file: File, requested: string, entry: Entry)
    requires ChannelsOk(st) && Found(st, file, requested) == Some(entry)
    ensures var now := Reload(st, file);
            var after := Connect(st, file, requested, true);
            && Connect(st, file, requested, false) == now
            && after.cache.Keys == now.cache.Keys + {entry.backendId}
            && (forall id | id in now.cache :: after.cache[id] == now.cache[id])
            && (entry.backendId !in now.cache ==>
                  var channel := after.cache[entry.backendId];
                  channel.builtFrom == entry && channel.number !in now.open && after.open == now.open + {channel.number})
  {
    hide Reload, Found, Loaded;
    ReloadKeepsChannels(st, file);
    var now := Reload(st, file);
    assert forall k | k in Numbers(now.cache) :: k < now.created;
  }

  /**
   After an eviction the backend's channel is closed and gone and no other is touched,
   and the next lookup that connects opens a different one.
   */
  lemma EvictLaw(st: State, file: File, requested: string, entry: Entry)
    requires ChannelsOk(st) && Found(st, file, requested) == Some(entry) && entry.backendId in Reload(st, file).cache
    ensures var now := Reload(st, file);
            var after := Evict(st, file, requested);
            var again := Connect(after, file, requested, true);
            var id := entry.backendId;
            && after.cache == now.cache - {id} && after.open == now.open - {now.cache[id].number}
            && now.cache[id].number in now.open
            && id in again.cache && again.cache[id].builtFrom == entry && again.cache[id].number != now.cache[id].number
  {
    ReloadKeepsChannels(st, file);
    FoundHasId(st, file, requested);
  }

  // ----- whole runs -----

  datatype Op = Lookup(file: File, requested: string, connects: bool) | Drop(file: File, requested: string)

  function Perform(st: State, op: Op): State {
    match op
    case Lookup(file, requested, connects) => Connect(st, file, requested, connects)
    case Drop(file, requested) => Evict(st, file, requested)
  }

  function RunOps(st: State, ops: seq<Op>): State
    decreases |ops|
  {
    if ops == [] then st else RunOps(Perform(st, ops[0]), ops[1..])
  }

  /** No step of the run loads unparsable text over cached channels. */
  predicate NeverForgets(st: State, ops: seq<Op>)
    decreases |ops|
  {
    ops != [] ==> !Forgets(st, ops[0].file) && NeverForgets(Perform(st, ops[0]), ops[1..])
  }

  lemma {:induction false} RunKeeps(st: State, ops: seq<Op>)
    requires Inv(st) && NeverForgets(st, ops)
    ensures Inv(RunOps(st, ops))
    decreases |ops|
  {
    hide Inv, Forgets, Connect, Evict;
    if ops == [] {
    } else {
      match ops[0]
      case Lookup(file, requested, connects) =>
        ConnectKeeps(st, file, requested, connects);
        RunKeeps(Perform(st, ops[0]), ops[1..]);
      case Drop(file, requested) =>
        EvictKeeps(st, file, requested);
        RunKeeps(Perform(st, ops[0]), ops[1..]);
    }
  }

  lemma {:induction false} RunKeepsChannels(st: State, ops: seq<Op>)
    requires ChannelsOk(st)
    ensures ChannelsOk(RunOps(st, ops))
    decreases |ops|
  {
    hide ChannelsOk, Connect, Evict;
    if ops == [] {
    } else {
      match ops[0]
      case Lookup(file, requested, connects) =>
        ConnectKeepsChannels(st, file, requested, connects);
        RunKeepsChannels(Perform(st, ops[0]), ops[1..]);
      case Drop(file, requested) =>
        EvictKeepsChannels(st, file, requested);
        RunKeepsChannels(Perform(st, ops[0]), ops[1..]);
    }
  }

  /** No channel leaks and none is shared: after any run at all, open channels and cached backends correspond one to one. */
  lemma NoChannelLeaks(ops: seq<Op>)
    ensures var end := RunOps(START, ops);
            && (forall k :: k in end.open <==> exists id :: id in end.cache && end.cache[id].number == k)
            && (forall id, jd | id in end.cache && jd in end.cache && end.cache[id].number == end.cache[jd].number :: id == jd)
            && (forall id | id in end.cache :: end.cache[id].builtFrom.backendId == id)
  {
    hide RunOps;
    RunKeepsChannels(START, ops);
  }

  /** Every lookup after every run that never forgets to flush is fresh. */
  ghost predicate StaysFresh(st: State) {
    forall ops: seq<Op>, file: File, requested: string | NeverForgets(st, ops) ::
      ServedFresh(RunOps(st, ops), file, requested)
  }

  /** In every state any run can reach, that future is assured exactly under the same two conditions. */
  lemma StaysFreshIff(past: seq<Op>)
    ensures var st := RunOps(START, past); StaysFresh(st) <==> Guarded(st) && NothingStale(st)
  {
    hide ChannelsOk, Guarded, NothingStale, ServedFresh, Perform, Forgets;
    var st := RunOps(START, past);
    RunKeepsChannels(START, past) by { StartOk(); }
    NextLookupFreshIff(st);
    if Guarded(st) && NothingStale(st) {
      forall ops: seq<Op>, file: File, requested: string | NeverForgets(st, ops)
        ensures ServedFresh(RunOps(st, ops), file, requested)
      {
        RunKeeps(st, ops);
        NextLookupFreshIff(RunOps(st, ops));
      }
    } else {
      var mtime: int, config: Config, requested: string :| !ServedFresh(st, Present(mtime, Good(config)), requested);
      assert NeverForgets(st, []) && RunOps(st, []) == st;
    }
  }

  lemma StartOk()
    ensures ChannelsOk(START)
  {
  }

  // ----- the configuration in force is the one on disk -----

  /** Contents that change change the mtime: what the file says is a function of its mtime. */
  predicate OnDisk(disk: int -> Contents, file: File) {
    file.Present? ==> file.contents == disk(file.mtime)
  }

  predicate Synced(disk: int -> Contents, st: State) {
    match st.config
    case Some(config) => disk(st.mtime) == Good(config)
    case None => st.mtime == 0 || disk(st.mtime) == Unparsable
  }

  predicate AllOnDisk(disk: int -> Contents, ops: seq<Op>) {
    forall op | op in ops :: OnDisk(disk, op.file)
  }

  lemma PerformKeepsSynced(disk: int -> Contents, st: State, op: Op)
    requires Synced(disk, st) && OnDisk(disk, op.file)
    ensures Synced(disk, Perform(st, op))
  {
  }

  lemma {:induction false} RunKeepsSynced(disk: int -> Contents, st: State, ops: seq<Op>)
    requires Synced(disk, st) && AllOnDisk(disk, ops)
    ensures Synced(disk, RunOps(st, ops))
    decreases |ops|
  {
    hide Synced, Perform;
    if ops == [] {
    } else {
      assert ops[0] in ops;
      PerformKeepsSynced(disk, st, ops[0]);
      RunKeepsSynced(disk, Perform(st, ops[0]), ops[1..]);
    }
  }

  /** An epoch-stamped file before anything else was loaded: its mtime is the one the state starts with. */
  predicate Overlooked(st: State, mtime: int) {
    mtime == 0 && st.mtime == 0 && st.config.None?
  }

  /** The configuration in force is the one on disk, except for an overlooked file. */
  lemma LoadedIsCurrentIff(disk: int -> Contents, st: State, mtime: int, config: Config)
    requires Synced(disk, st) && disk(mtime) == Good(config)
    ensures Loaded(st, Present(mtime, Good(config))) == if Overlooked(st, mtime) then None else Some(config)
  {
  }

  /** The exception is real at the very start, for every configuration, and gone once another file was loaded. */
  lemma EpochFileIsOverlooked(config: Config, other: Config, mtime: int, requested: string)
    requires mtime != 0
    ensures Found(START, Present(0, Good(config)), requested) == None
    ensures var st := RunOps(START, [Lookup(Present(mtime, Good(other)), requested, false)]);
            Found(st, Present(0, Good(config)), requested) == Resolve(config, requested)
  {
    var op := Lookup(Present(mtime, Good(other)), requested, false);
    assert [op][1..] == [];
    assert RunOps(START, [op]) == Perform(START, op);
  }

  /**
   After any run that never forgets to flush, a lookup resolves in the configuration
   on disk, unless the file is overlooked, in which case it fails; and if it yields a
   channel, that is an open one built from the entry the lookup resolved to.
   */
  lemma CachedLookupIsFresh(disk: int -> Contents, ops: seq<Op>, mtime: int, config: Config,
                            requested: string, connects: bool)
    requires NeverForgets(START, ops) && AllOnDisk(disk, ops)
    requires disk(mtime) == Good(config)
    ensures var st := RunOps(START, ops);
            var file := Present(mtime, Good(config));
            var after := Connect(st, file, requested, connects);
            var entry := Found(st, file, requested);
            && entry == (if Overlooked(st, mtime) then None else Resolve(config, requested))
            && (entry.Some? && entry.value.backendId in after.cache ==>
                  && after.cache[entry.value.backendId].builtFrom == entry.value
                  && after.cache[entry.value.backendId].number in after.open)
            && after.open == Numbers(after.cache)
  {
    hide Synced, NeverForgets, AllOnDisk;
    var st := RunOps(START, ops);
    var file := Present(mtime, Good(config));
    RunKeeps(START, ops);
    StartSynced(disk);
    RunKeepsSynced(disk, START, ops);
    LoadedIsCurrentIff(disk, st, mtime, config);
    ConnectKeeps(st, file, requested, connects);
    FoundHasId(st, file, requested);
  }

  lemma StartSynced(disk: int -> Contents)
    ensures Synced(disk, START)
  {
  }

  /**
   The gap is real: an unreadable file between two readable ones leaves a channel to
   the old host in service. The state is guarded again, but every further lookup on
   the unchanged file goes on serving that channel.
   */
  lemma StaleChannelSurvives(previous: Entry, replacement: Entry)
    requires previous.backendId == replacement.backendId != "" && previous != replacement
    ensures var id := previous.backendId;
            var ops := [Lookup(Present(1, Good(Config(id, [previous]))), id, true),
                        Drop(Present(2, Unparsable), ""),
                        Lookup(Present(3, Good(Config(id, [replacement]))), id, true)];
            var end := RunOps(START, ops);
            && id in end.cache && end.cache[id].builtFrom == previous && end.config == Some(Config(id, [replacement]))
            && Guarded(end) && !NothingStale(end)
            && forall connects :: Perform(end, Lookup(Present(3, Good(Config(id, [replacement]))), id, connects)) == end
  {
    var id := previous.backendId;
    var first := Lookup(Present(1, Good(Config(id, [previous]))), id, true);
    var second := Drop(Present(2, Unparsable), "");
    var third := Lookup(Present(3, Good(Config(id, [replacement]))), id, true);
    var one := Perform(START, first);
    assert one.cache[id].builtFrom == previous;
    var two := Perform(one, second);
    assert two == one.(config := None, mtime := 2);
    var three := Perform(two, third);
    assert RunOps(START, [first, second, third]) == three by {
      assert [first, second, third][1..] == [second, third];
      assert [second, third][1..] == [third];
      assert [third][1..] == [];
      assert RunOps(two, [third]) == RunOps(three, []);
      assert RunOps(one, [second, third]) == RunOps(two, [third]);
    }
  }

  // ----- the module-level state, updated in place -----

  class Backends {
    var mtime: int
    var config: Option<Config>
    var cache: map<string, Channel>
    ghost var open: set<nat>
    var created: nat

    ghost function Model(): State
      reads this
    {
      State(mtime, config, cache, open, created)
    }

    constructor ()
      ensures Model() == START
    {
      mtime, config, cache, open, created := 0, None, map[], {}, 0;
    }

    /** Reload if the file changed, closing every cached channel first when a configuration is replaced. */
    method GetBackends(file: File) returns (loaded: Option<Config>)
      modifies this
      ensures Model() == Reload(old(Model()), file)
      ensures loaded == Loaded(old(Model()), file)
    {
      if file.Missing? {
        return None;
      }
      if file.mtime != mtime {
        match file.contents {
          case Refused => return None;
          case Unparsable => config := None;
          case Good(reread) =>
            if config.Some? {
              CloseAll();
              cache := map[];
            }
            config := Some(reread);
        }
        mtime := file.mtime;
      }
      return config;
    }

    method CloseAll()
      modifies this`open
      ensures open == old(open) - Numbers(cache)
    {
      var rest := cache.Keys;
      while rest != {}
        invariant rest <= cache.Keys
        invariant open == old(open) - set id | id in cache && id !in rest :: cache[id].number
      {
        var id :| id in rest;
        open := open - {cache[id].number};
        rest := rest - {id};
      }
    }

    method GetBackendInfo(file: File, requested: string) returns (entry: Option<Entry>)
      modifies this
      ensures Model() == Reload(old(Model()), file)
      ensures entry == Found(old(Model()), file, requested)
    {
      var loaded := GetBackends(file);
      if loaded.None? {
        return None;
      }
      var id := if requested == "" then loaded.value.defaultBackend else requested;
      if id == "" {
        return None;
      }
      var backends := loaded.value.backends;
      var i := 0;
      assert backends[0..] == backends;
      while i < |backends|
        invariant 0 <= i <= |backends|
        invariant FirstMatch(backends, id) == FirstMatch(backends[i..], id)
      {
        if backends[i].backendId == id {
          return Some(backends[i]);
        }
        assert backends[i..][1..] == backends[i + 1..];
        i := i + 1;
      }
      return None;
    }

    method GetCachedStub(file: File, requested: string, connects: bool) returns (channel: Option<Channel>)
      modifies this
      ensures Model() == Connect(old(Model()), file, requested, connects)
      ensures var entry := Found(old(Model()), file, requested);
              channel == if entry.None? then None else Get(cache, entry.value.backendId)
    {
      var entry := GetBackendInfo(file, requested);
      if entry.None? {
        return None;
      }
      var id := entry.value.backendId;
      if id !in cache {
        if !connects {
          return None;
        }
        cache := cache[id := Channel(created, entry.value)];
        open := open + {created};
        created := created + 1;
      }
      return Some(cache[id]);
    }

    method EvictBackend(file: File, requested: string)
      modifies this
      ensures Model() == Evict(old(Model()), file, requested)
    {
      var entry := GetBackendInfo(file, requested);
      if entry.None? {
        return;
      }
      var id := entry.value.backendId;
      if id in cache {
        open := open - {cache[id].number};
        cache := cache - {id};
      }
    }
  }
}
