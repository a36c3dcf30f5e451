/** The Redis-backed store (TieredCaching::RedisStore): a circuit breaker
    around a connection that can raise. Every guarded call first restores
    the connection once 5 seconds have passed since the last failure, then
    runs its block of Redis commands only while the connection is active;
    a command that raises logs one warning, drops the active connection,
    forgets the cached getset script id and stamps the failure time.

    The Redis server is an abstract key/value map with the set of loaded
    scripts; the getset script is one atomic get-or-insert. Which command
    of a block raises is an explicit oracle `failAt` (its position in the
    block), and the wall clock is a parameter `now` in seconds. */
module RedisStores {

  import opened Optional
  import opened HashStores

  /** The two Lua scripts the store loads: getset.lua and getset_ttl.lua. */
  datatype Script = GetsetScript | GetsetTtlScript

  /** A script id as `script load` answers it (the SHA1 of the script
      text): it names the script it was computed from. */
  datatype Sha = Sha(script: Script)

  /** The guarded actions, as named in the warning
      "Error calling #<action> on redis store". */
  datatype Action = SetAction | GetAction | GetsetAction

  /** The `argv` of an `evalsha`: `[value]`, or `[value, ttl]` with a TTL. */
  datatype Argv<V> = Plain(candidate: V) | WithTtl(candidate: V, ttl: nat)

  /** A command sent to the Redis connection. */
  datatype Command<K, V> =
    | SetCmd(key: K, value: V)
    | ExpireCmd(key: K, seconds: nat)
    | GetCmd(key: K)
    | LoadCmd(script: Script)
    | EvalShaCmd(sha: Sha, key: K, argv: Argv<V>)
    | DelCmd(key: K)
    | FlushAllCmd

  /** The remote Redis state: the stored keys, the keys given a time to
      live (in seconds), and the scripts loaded so far. */
  datatype Server<K, V> = Server(data: map<K, V>, expiring: map<K, nat>, loaded: set<Script>)

  /** An `evalsha` of a script the server never loaded fails with NOSCRIPT. */
  predicate Rejects<K, V>(server: Server<K, V>, c: Command<K, V>)
  {
    c.EvalShaCmd? && c.sha.script !in server.loaded
  }

  /** One command that does not raise: the new server state and the value
      it answers (for GET and EVALSHA; nil for the others). SET drops any
      time to live, EXPIRE on a missing key does nothing, both scripts
      store the candidate only when the key is absent and answer what is
      stored. */
  function Exec<K, V>(server: Server<K, V>, c: Command<K, V>): (r: (Server<K, V>, Option<V>))
    ensures c.GetCmd? ==> r == (server, Lookup(server.data, c.key))
    ensures c.EvalShaCmd? ==>
              var (m, v) := GetOrInsert(server.data, c.key, c.argv.candidate);
              r == (server.(data := m), Some(v))
    ensures c.SetCmd? ==> r.0.data == server.data[c.key := c.value] && c.key !in r.0.expiring
    ensures c.DelCmd? ==> r.0.data == server.data - {c.key} && c.key !in r.0.expiring
    ensures c.FlushAllCmd? ==> r.0.data == map[] && r.0.expiring == map[]
    ensures r.0.loaded == if c.LoadCmd? then server.loaded + {c.script} else server.loaded
  {
    match c
    case SetCmd(k, v) => (server.(data := server.data[k := v], expiring := server.expiring - {k}), None)
    case ExpireCmd(k, t) =>
      (if k in server.data then server.(expiring := server.expiring[k := t]) else server, None)
    case GetCmd(k) => (server, Lookup(server.data, k))
    case LoadCmd(s) => (server.(loaded := server.loaded + {s}), None)
    case EvalShaCmd(_, k, argv) =>
      var (m, v) := GetOrInsert(server.data, k, argv.candidate);
      (server.(data := m), Some(v))
    case DelCmd(k) => (server.(data := server.data - {k}, expiring := server.expiring - {k}), None)
    case FlushAllCmd => (server.(data := map[], expiring := map[]), None)
  }

  /** What running a block of commands did: the server afterwards, how many
      commands completed, whether one raised, and the answer of the last
      command that completed. */
  datatype Run<K, V> = Run(server: Server<K, V>, done: nat, raised: bool, reply: Option<V>)

  /** Send `cmds[i..]` in order. The command at position `failAt` raises,
      and so does an `evalsha` the server rejects; the first raise ends the
      block, and the command that raised has no effect. */
  function Issue<K, V>(server: Server<K, V>, cmds: seq<Command<K, V>>, failAt: Option<nat>, i: nat, last: Option<V>)
    : (r: Run<K, V>)
    requires i <= |cmds|
    decreases |cmds| - i
    ensures i <= r.done <= |cmds|
    ensures r.raised <==> r.done < |cmds|
    ensures forall j :: i <= j < r.done ==> failAt != Some(j)
    ensures r.raised ==> failAt == Some(r.done) || Rejects(r.server, cmds[r.done])
    ensures server.loaded <= r.server.loaded
    ensures forall j :: i <= j < r.done && cmds[j].LoadCmd? ==> cmds[j].script in r.server.loaded
  {
    if i == |cmds| then Run(server, i, false, last)
    else if failAt == Some(i) || Rejects(server, cmds[i]) then Run(server, i, true, None)
    else
      var (next, reply) := Exec(server, cmds[i]);
      Issue(next, cmds, failAt, i + 1, reply)
  }

  /** A block of one command. */
  lemma IssueOne<K, V>(server: Server<K, V>, c: Command<K, V>, failAt: Option<nat>)
    ensures Issue(server, [c], failAt, 0, None)
            == if failAt == Some(0) || Rejects(server, c) then Run(server, 0, true, None)
               else Run(Exec(server, c).0, 1, false, Exec(server, c).1)
  {
    if !(failAt == Some(0) || Rejects(server, c)) {
      var (next, reply) := Exec(server, c);
      assert Issue(server, [c], failAt, 0, None) == Issue(next, [c], failAt, 1, reply);
    }
  }

  /** A block of two commands. */
  lemma IssueTwo<K, V>(server: Server<K, V>, c: Command<K, V>, d: Command<K, V>, failAt: Option<nat>)
    ensures var mid := Exec(server, c).0;
            Issue(server, [c, d], failAt, 0, None)
            == if failAt == Some(0) || Rejects(server, c) then Run(server, 0, true, None)
               else if failAt == Some(1) || Rejects(mid, d) then Run(mid, 1, true, None)
               else Run(Exec(mid, d).0, 2, false, Exec(mid, d).1)
  {
    if !(failAt == Some(0) || Rejects(server, c)) {
      var (mid, reply) := Exec(server, c);
      assert Issue(server, [c, d], failAt, 0, None) == Issue(mid, [c, d], failAt, 1, reply);
      if !(failAt == Some(1) || Rejects(mid, d)) {
        var (last, reply') := Exec(mid, d);
        assert Issue(mid, [c, d], failAt, 1, reply) == Issue(last, [c, d], failAt, 2, reply');
      }
    }
  }

  /** The commands of a block that reached the connection: the completed
      ones, and the one that raised. */
  function Attempted<K, V>(cmds: seq<Command<K, V>>, run: Run<K, V>): seq<Command<K, V>>
    requires run.done <= |cmds| && (run.raised ==> run.done < |cmds|)
  {
    cmds[..if run.raised then run.done + 1 else run.done]
  }

  /** The store's own state beside the server: whether the connection is
      active, when it last failed, and the cached script ids. */
  datatype State<K, V> = State(server: Server<K, V>, active: bool, disconnectTime: Option<int>,
                               getsetSha: Option<Sha>, getsetTtlSha: Option<Sha>)

  /** What one guarded call did: the new state, its answer, the commands it
      sent, whether one raised (and so one warning was logged), and how many
      times it evaluated the caller's block. */
  datatype Call<K, V> = Call(state: State<K, V>, reply: Option<V>, issued: seq<Command<K, V>>,
                             failed: bool, blockRuns: nat)

  /** What the store keeps true: a dropped connection has a failure time,
      and a cached script id names its own script, which the server has
      loaded. */
  predicate Consistent<K, V>(s: State<K, V>)
  {
    && (!s.active ==> s.disconnectTime.Some?)
    && (s.getsetSha.Some? ==> s.getsetSha == Some(Sha(GetsetScript)) && GetsetScript in s.server.loaded)
    && (s.getsetTtlSha.Some? ==> s.getsetTtlSha == Some(Sha(GetsetTtlScript)) && GetsetTtlScript in s.server.loaded)
  }

  /** The start of `with_connection`: once the last failure is 5 seconds
      old, the connection is active again. */
  function Reconnect<K, V>(s: State<K, V>, now: int): (r: State<K, V>)
    ensures r.active <==> s.active || (s.disconnectTime.Some? && now >= s.disconnectTime.value + 5)
    ensures r.(active := s.active) == s
  {
    if s.disconnectTime.Some? && now >= s.disconnectTime.value + 5 then s.(active := true) else s
  }

  /** The `rescue` of `with_connection`: drop the connection, forget the
      getset script id (only that one) and stamp the failure time. */
  function Trip<K, V>(s: State<K, V>, now: int): (r: State<K, V>)
    ensures !r.active && r.disconnectTime == Some(now) && r.getsetSha.None?
    ensures r.server == s.server && r.getsetTtlSha == s.getsetTtlSha
  {
    s.(active := false, getsetSha := None, disconnectTime := Some(now))
  }

  /** The block `cmds` run on the active connection, with the `rescue`. */
  function Attempt<K, V>(s: State<K, V>, now: int, cmds: seq<Command<K, V>>, failAt: Option<nat>): (r: Call<K, V>)
    ensures r.issued <= cmds && r.blockRuns == 0
    ensures r.failed ==> |r.issued| > 0
                         && (failAt == Some(|r.issued| - 1) || Rejects(r.state.server, r.issued[|r.issued| - 1]))
    ensures r.failed ==> r.state == Trip(s.(server := r.state.server), now) && r.reply.None?
    ensures !r.failed ==> r.issued == cmds && r.state == s.(server := r.state.server)
  {
    var run := Issue(s.server, cmds, failAt, 0, None);
    var s2 := s.(server := run.server);
    if run.raised then Call(Trip(s2, now), None, Attempted(cmds, run), true, 0)
    else Call(s2, run.reply, Attempted(cmds, run), false, 0)
  }

  /** A guarded call whose block is the fixed command list `cmds`. */
  function Guard<K, V>(s: State<K, V>, now: int, cmds: seq<Command<K, V>>, failAt: Option<nat>): (r: Call<K, V>)
    ensures !Reconnect(s, now).active ==> r == Call(s, None, [], false, 0)
    ensures Reconnect(s, now).active ==> |r.issued| > 0 || cmds == []
    ensures r.issued <= cmds && r.blockRuns == 0
  {
    var s1 := Reconnect(s, now);
    if !s1.active then Call(s1, None, [], false, 0) else Attempt(s1, now, cmds, failAt)
  }

  /** The block of `set`: SET, then EXPIRE when a TTL is configured. */
  function SetCommands<K, V>(key: K, value: V, ttl: Option<nat>): (r: seq<Command<K, V>>)
    ensures |r| == if ttl.Some? then 2 else 1
    ensures r[0] == SetCmd(key, value)
    ensures ttl.Some? ==> r[1] == ExpireCmd(key, ttl.value)
  {
    [SetCmd(key, value)] + if ttl.Some? then [ExpireCmd(key, ttl.value)] else []
  }

  /** `set(key, value)` as a guarded call (its answer is always `value`). */
  function SetOp<K, V>(s: State<K, V>, ttl: Option<nat>, key: K, value: V, now: int, failAt: Option<nat>)
    : (r: Call<K, V>)
    ensures r.issued <= SetCommands(key, value, ttl) && r.reply.None?
    ensures r.state.getsetTtlSha == s.getsetTtlSha && r.state.server.loaded == s.server.loaded
  {
    var server := Reconnect(s, now).server;
    if ttl.Some? then
      IssueTwo(server, SetCmd(key, value), ExpireCmd(key, ttl.value), failAt);
      assert SetCommands(key, value, ttl) == [SetCmd(key, value), ExpireCmd(key, ttl.value)];
      Guard(s, now, SetCommands(key, value, ttl), failAt)
    else
      IssueOne(server, SetCmd(key, value), failAt);
      assert SetCommands(key, value, ttl) == [SetCmd(key, value)];
      Guard(s, now, SetCommands(key, value, ttl), failAt)
  }

  /** `get(key)` as a guarded call. */
  function GetOp<K, V>(s: State<K, V>, key: K, now: int, failAt: Option<nat>): (r: Call<K, V>)
    ensures r.issued <= [GetCmd(key)]
    ensures r.state.server == s.server
    ensures r.issued == [GetCmd(key)] && !r.failed ==> r.reply == Lookup(s.server.data, key)
  {
    IssueOne(s.server, GetCmd(key), failAt);
    Guard(s, now, [GetCmd(key)], failAt)
  }

  /** The script `getset` runs, given the TTL setting. */
  function GetsetScriptFor(ttl: Option<nat>): Script
  {
    if ttl.Some? then GetsetTtlScript else GetsetScript
  }

  /** The cached id of that script. */
  function CachedSha<K, V>(s: State<K, V>, ttl: Option<nat>): Option<Sha>
  {
    if ttl.Some? then s.getsetTtlSha else s.getsetSha
  }

  /** The block of `getset`: a `script load` when the id is not cached,
      then the `evalsha` with `keys: [key]` and the block's value (and the
      TTL) as `argv`. */
  function GetsetCommands<K, V>(s: State<K, V>, ttl: Option<nat>, key: K, candidate: V): (r: seq<Command<K, V>>)
    ensures |r| == if CachedSha(s, ttl).Some? then 1 else 2
    ensures CachedSha(s, ttl).None? ==> r[0] == LoadCmd(GetsetScriptFor(ttl))
    ensures r[|r| - 1].EvalShaCmd? && r[|r| - 1].key == key && r[|r| - 1].argv == GetsetArgv(ttl, candidate)
  {
    var cached := CachedSha(s, ttl);
    var sha := if cached.Some? then cached.value else Sha(GetsetScriptFor(ttl));
    (if cached.Some? then [] else [LoadCmd(GetsetScriptFor(ttl))]) + [EvalShaCmd(sha, key, GetsetArgv(ttl, candidate))]
  }

  /** `getset(key) { candidate }` as a guarded call. The id is memoised
      once its load succeeds; the block is evaluated once the id is known,
      just before the `evalsha` is sent. */
  function GetsetOp<K, V>(s: State<K, V>, ttl: Option<nat>, key: K, candidate: V, now: int, failAt: Option<nat>)
    : (r: Call<K, V>)
    ensures !Reconnect(s, now).active ==> r == Call(s, None, [], false, 0)
    ensures r.blockRuns <= 1 && |r.issued| <= 2
    ensures r.failed ==> !r.state.active && r.state.disconnectTime == Some(now) && r.state.getsetSha.None? && r.reply.None?
  {
    var s1 := Reconnect(s, now);
    if !s1.active then Call(s1, None, [], false, 0) else GetsetAttempt(s1, ttl, key, candidate, now, failAt)
  }

  /** The block of `getset` on the active connection, with the `rescue`. */
  function GetsetAttempt<K, V>(s: State<K, V>, ttl: Option<nat>, key: K, candidate: V, now: int, failAt: Option<nat>)
    : (r: Call<K, V>)
    ensures r.issued <= GetsetCommands(s, ttl, key, candidate) && |r.issued| >= 1
    ensures r.blockRuns == 1 <==> CachedSha(s, ttl).Some? || Issue(s.server, GetsetCommands(s, ttl, key, candidate), failAt, 0, None).done >= 1
    ensures r.blockRuns <= 1
    ensures r.failed ==> !r.state.active && r.state.disconnectTime == Some(now) && r.state.getsetSha.None? && r.reply.None?
    ensures CachedSha(s, ttl).Some? ==> CachedSha(r.state, ttl) == CachedSha(s, ttl) || (ttl.None? && r.failed)
  {
    var cmds := GetsetCommands(s, ttl, key, candidate);
    var run := Issue(s.server, cmds, failAt, 0, None);
    var cached := CachedSha(s, ttl);
    var known := cached.Some? || run.done >= 1;
    var sha := if known then Some(Sha(GetsetScriptFor(ttl))) else None;
    var s2 := s.(server := run.server,
                 getsetSha := if ttl.None? && cached.None? then sha else s.getsetSha,
                 getsetTtlSha := if ttl.Some? && cached.None? then sha else s.getsetTtlSha);
    var runs := if known then 1 else 0;
    if run.raised then Call(Trip(s2, now), None, Attempted(cmds, run), true, runs)
    else Call(s2, run.reply, Attempted(cmds, run), false, runs)
  }

  /** A guarded call with a fixed block (`set`, `get`) keeps the store
      consistent: a failure always stamps a time, and the server never
      forgets a loaded script. */
  lemma GuardStaysConsistent<K, V>(s: State<K, V>, now: int, cmds: seq<Command<K, V>>, failAt: Option<nat>)
    requires Consistent(s)
    ensures Consistent(Guard(s, now, cmds, failAt).state)
  {
  }

  /** `getset` keeps the store consistent too: a script id is only cached
      once its load went through. */
  lemma GetsetStaysConsistent<K, V>(s: State<K, V>, ttl: Option<nat>, key: K, candidate: V, now: int, failAt: Option<nat>)
    requires Consistent(s)
    ensures Consistent(GetsetOp(s, ttl, key, candidate, now, failAt).state)
  {
    var s1 := Reconnect(s, now);
    var cmds := GetsetCommands(s1, ttl, key, candidate);
    var run := Issue(s1.server, cmds, failAt, 0, None);
    if CachedSha(s1, ttl).None? && run.done >= 1 {
      assert cmds[0] == LoadCmd(GetsetScriptFor(ttl));
    }
  }

  /** The `argv` that `getset` sends for `candidate`. */
  function GetsetArgv<V>(ttl: Option<nat>, candidate: V): Argv<V>
  {
    if ttl.Some? then WithTtl(candidate, ttl.value) else Plain(candidate)
  }

  /** `set` on a working connection writes the value, sets the time to live
      when one is configured and drops it otherwise, and sends EXPIRE only
      when a TTL is configured. */
  lemma SetWrites<K, V>(s: State<K, V>, ttl: Option<nat>, key: K, value: V, now: int)
    requires Reconnect(s, now).active
    ensures var c := SetOp(s, ttl, key, value, now, None);
            && !c.failed && c.state.active
            && c.state.server.data == s.server.data[key := value]
            && c.state.server.expiring
               == (if ttl.Some? then s.server.expiring[key := ttl.value] else s.server.expiring - {key})
            && c.issued[0] == SetCmd(key, value)
            && |c.issued| == (if ttl.Some? then 2 else 1)
            && (ttl.Some? ==> c.issued[1] == ExpireCmd(key, ttl.value))
  {
    var server := Reconnect(s, now).server;
    if ttl.Some? {
      assert SetCommands(key, value, ttl) == [SetCmd(key, value), ExpireCmd(key, ttl.value)];
      IssueTwo(server, SetCmd(key, value), ExpireCmd(key, ttl.value), None);
    } else {
      assert SetCommands(key, value, ttl) == [SetCmd(key, value)];
      IssueOne(server, SetCmd(key, value), None);
    }
  }

  /** A failed guarded call trips the breaker: the connection is dropped,
      the failure time is `now`, the getset id (and only that one) is
      forgotten, and the call answers nil. A call fails exactly when one of
      its commands raised. */
  lemma GuardTrips<K, V>(s: State<K, V>, now: int, cmds: seq<Command<K, V>>, failAt: Option<nat>)
    ensures var c := Guard(s, now, cmds, failAt);
            var s1 := Reconnect(s, now);
            && (c.failed <==> s1.active && Issue(s1.server, cmds, failAt, 0, None).raised)
            && (c.failed ==> && !c.state.active && c.state.disconnectTime == Some(now)
                             && c.state.getsetSha.None? && c.state.getsetTtlSha == s.getsetTtlSha
                             && c.reply.None? && |c.issued| >= 1)
  {
    var s1 := Reconnect(s, now);
    if s1.active {
      var run := Issue(s1.server, cmds, failAt, 0, None);
      assert |Attempted(cmds, run)| == if run.raised then run.done + 1 else run.done;
    }
  }

  /** The same for `getset`: the block raised, so the breaker trips. */
  lemma GetsetTrips<K, V>(s: State<K, V>, ttl: Option<nat>, key: K, candidate: V, now: int, failAt: Option<nat>)
    ensures var c := GetsetOp(s, ttl, key, candidate, now, failAt);
            var s1 := Reconnect(s, now);
            && (c.failed <==> s1.active && Issue(s1.server, GetsetCommands(s1, ttl, key, candidate), failAt, 0, None).raised)
            && (c.failed ==> && !c.state.active && c.state.disconnectTime == Some(now)
                             && c.state.getsetSha.None? && c.reply.None? && |c.issued| >= 1)
  {
    var s1 := Reconnect(s, now);
    if s1.active {
      var cmds := GetsetCommands(s1, ttl, key, candidate);
      var run := Issue(s1.server, cmds, failAt, 0, None);
      assert |Attempted(cmds, run)| == if run.raised then run.done + 1 else run.done;
    }
  }

  /** While the breaker is tripped and its 5 seconds have not passed, every
      guarded call leaves the state alone, sends nothing, logs nothing,
      answers nil and does not evaluate the getset block. */
  lemma SilentWhileTripped<K, V>(s: State<K, V>, ttl: Option<nat>, key: K, value: V, now: int, failAt: Option<nat>)
    requires !s.active && s.disconnectTime.Some? && now < s.disconnectTime.value + 5
    ensures SetOp(s, ttl, key, value, now, failAt) == Call(s, None, [], false, 0)
    ensures GetOp(s, key, now, failAt) == Call(s, None, [], false, 0)
    ensures GetsetOp(s, ttl, key, value, now, failAt) == Call(s, None, [], false, 0)
  {
  }

  /** Once 5 seconds have passed since the failure, the next `get` reaches
      the connection again and, if the command goes through, answers what
      the server holds with the connection active. */
  lemma ReconnectsAfterWindow<K, V>(s: State<K, V>, key: K, now: int, failAt: Option<nat>)
    requires s.disconnectTime.Some? && now >= s.disconnectTime.value + 5
    ensures var c := GetOp(s, key, now, failAt);
            && c.issued == [GetCmd(key)]
            && (failAt != Some(0) ==> c.state.active && !c.failed && c.reply == Lookup(s.server.data, key))
  {
    IssueOne(s.server, GetCmd(key), failAt);
  }

  /** `getset` on a working connection behaves as the script promises: it
      answers the stored value if there is one, else stores and answers the
      candidate; the block runs once and the script id ends up memoised. */
  lemma GetsetConforms<K, V>(s: State<K, V>, ttl: Option<nat>, key: K, candidate: V, now: int)
    requires Consistent(s) && Reconnect(s, now).active
    ensures var c := GetsetOp(s, ttl, key, candidate, now, None);
            var (m, v) := GetOrInsert(s.server.data, key, candidate);
            && !c.failed && c.state.active
            && c.reply == Some(v) && c.state.server.data == m
            && c.blockRuns == 1
            && CachedSha(c.state, ttl) == Some(Sha(GetsetScriptFor(ttl)))
            && |c.issued| >= 1
            && c.issued[|c.issued| - 1] == EvalShaCmd(Sha(GetsetScriptFor(ttl)), key, GetsetArgv(ttl, candidate))
  {
    var s1 := Reconnect(s, now);
    var call := EvalShaCmd(Sha(GetsetScriptFor(ttl)), key, GetsetArgv(ttl, candidate));
    if CachedSha(s1, ttl).Some? {
      assert GetsetCommands(s1, ttl, key, candidate) == [call];
      IssueOne(s1.server, call, None);
    } else {
      var load := LoadCmd(GetsetScriptFor(ttl));
      assert GetsetCommands(s1, ttl, key, candidate) == [load, call];
      IssueTwo(s1.server, load, call, None);
    }
  }

  /** A memoised script id is reused: `getset` then sends the `evalsha`
      alone, with no `script load`. */
  lemma GetsetReusesSha<K, V>(s: State<K, V>, ttl: Option<nat>, key: K, candidate: V, now: int, failAt: Option<nat>)
    requires Reconnect(s, now).active && CachedSha(s, ttl).Some?
    ensures var c := GetsetOp(s, ttl, key, candidate, now, failAt);
            && c.issued == [EvalShaCmd(CachedSha(s, ttl).value, key, GetsetArgv(ttl, candidate))]
            && c.blockRuns == 1
  {
    var s1 := Reconnect(s, now);
    var call := EvalShaCmd(CachedSha(s, ttl).value, key, GetsetArgv(ttl, candidate));
    assert GetsetCommands(s1, ttl, key, candidate) == [call];
    IssueOne(s1.server, call, failAt);
  }

  /** With no cached id, a failure of the `script load` leaves the block
      unevaluated; a failure of the `evalsha` after a successful load forgets
      the plain script id but keeps the TTL script id memoised. */
  lemma GetsetFailureForgetsPlainShaOnly<K, V>(s: State<K, V>, ttl: Option<nat>, key: K, candidate: V, now: int)
    requires Reconnect(s, now).active && CachedSha(s, ttl).None?
    ensures GetsetOp(s, ttl, key, candidate, now, Some(0)).blockRuns == 0
    ensures var c := GetsetOp(s, ttl, key, candidate, now, Some(1));
            && c.failed && c.blockRuns == 1
            && c.state.getsetSha.None?
            && (ttl.Some? ==> c.state.getsetTtlSha == Some(Sha(GetsetTtlScript)))
  {
    var s1 := Reconnect(s, now);
    var load := LoadCmd(GetsetScriptFor(ttl));
    var call := EvalShaCmd(Sha(GetsetScriptFor(ttl)), key, GetsetArgv(ttl, candidate));
    assert GetsetCommands(s1, ttl, key, candidate) == [load, call];
    IssueTwo(s1.server, load, call, Some(0));
    IssueTwo(s1.server, load, call, Some(1));
  }

  /** A failed `getset` without a TTL forgets the script id, so once the
      connection is back the next one loads the script again before its
      `evalsha`. */
  lemma GetsetReloadsAfterTrip<K, V>(s: State<K, V>, key: K, first: V, second: V, now: int, later: int, failAt: Option<nat>)
    requires GetsetOp(s, None, key, first, now, failAt).failed && later >= now + 5
    ensures var c1 := GetsetOp(s, None, key, first, now, failAt);
            GetsetOp(c1.state, None, key, second, later, None).issued
            == [LoadCmd(GetsetScript), EvalShaCmd(Sha(GetsetScript), key, Plain(second))]
  {
    var s1 := GetsetOp(s, None, key, first, now, failAt).state;
    var s2 := Reconnect(s1, later);
    var load, call := LoadCmd(GetsetScript), EvalShaCmd(Sha(GetsetScript), key, Plain(second));
    assert GetsetCommands(s2, None, key, second) == [load, call];
    IssueTwo(s2.server, load, call, None);
  }

  /** On a server that never loses its scripts, a consistent store never
      meets NOSCRIPT: a `getset` fails only when the connection itself
      raises. (A server that drops its scripts breaks `Consistent`; see
      `StrandedTtlShaPersists` and `PlainShaRecovers`.) */
  lemma NoScriptNeverRaised<K, V>(s: State<K, V>, ttl: Option<nat>, key: K, candidate: V, now: int, failAt: Option<nat>)
    requires Consistent(s)
    ensures GetsetOp(s, ttl, key, candidate, now, failAt).failed ==> failAt.Some?
  {
    var s1 := Reconnect(s, now);
    if s1.active {
      var call := EvalShaCmd(Sha(GetsetScriptFor(ttl)), key, GetsetArgv(ttl, candidate));
      if CachedSha(s1, ttl).Some? {
        assert GetsetCommands(s1, ttl, key, candidate) == [call];
        IssueOne(s1.server, call, failAt);
      } else {
        var load := LoadCmd(GetsetScriptFor(ttl));
        assert GetsetCommands(s1, ttl, key, candidate) == [load, call];
        IssueTwo(s1.server, load, call, failAt);
      }
    }
  }

  /** The server losing every loaded script (a `script flush` or a restart
      by someone else): the data stays, the store's cached ids do not know. */
  function ScriptFlush<K, V>(server: Server<K, V>): (r: Server<K, V>)
    ensures r.loaded == {} && r.data == server.data && r.expiring == server.expiring
  {
    server.(loaded := {})
  }

  /** The TTL script id is memoised but the server no longer has the script:
      the state a consistent store with that id is left in by `ScriptFlush`. */
  predicate TtlShaStranded<K, V>(s: State<K, V>)
  {
    s.getsetTtlSha == Some(Sha(GetsetTtlScript)) && GetsetTtlScript !in s.server.loaded
  }

  /** A flush under a consistent store that has memoised the TTL id strands
      that id, and the store is no longer consistent. */
  lemma FlushStrandsTtlSha<K, V>(s: State<K, V>)
    requires Consistent(s) && s.getsetTtlSha.Some?
    ensures var f := s.(server := ScriptFlush(s.server));
            TtlShaStranded(f) && !Consistent(f)
  {
  }

  /** Once the TTL id is stranded it stays so: the `rescue` never forgets
      that id, so every TTL `getset` that reaches the connection sends the
      stale `evalsha` alone, gets NOSCRIPT, trips the breaker and answers
      nil, and `set` and `get` do not reload the script either. */
  lemma StrandedTtlShaPersists<K, V>(s: State<K, V>, t: nat, key: K, candidate: V, now: int, failAt: Option<nat>)
    requires TtlShaStranded(s)
    ensures var c := GetsetOp(s, Some(t), key, candidate, now, failAt);
            && TtlShaStranded(c.state) && c.reply.None?
            && (c.failed <==> Reconnect(s, now).active)
            && (c.failed ==> c.issued == [EvalShaCmd(Sha(GetsetTtlScript), key, WithTtl(candidate, t))])
    ensures TtlShaStranded(SetOp(s, Some(t), key, candidate, now, failAt).state)
    ensures TtlShaStranded(GetOp(s, key, now, failAt).state)
  {
    var s1 := Reconnect(s, now);
    if s1.active {
      var call := EvalShaCmd(Sha(GetsetTtlScript), key, WithTtl(candidate, t));
      assert GetsetCommands(s1, Some(t), key, candidate) == [call];
      IssueOne(s1.server, call, failAt);
    }
  }

  /** The plain id in the same situation recovers: the first `getset` gets
      NOSCRIPT and trips, the `rescue` forgets the id, and once the
      connection is back the next `getset` reloads the script and succeeds. */
  lemma PlainShaRecovers<K, V>(s: State<K, V>, key: K, first: V, second: V, now: int, later: int)
    requires s.getsetSha == Some(Sha(GetsetScript)) && GetsetScript !in s.server.loaded
    requires Reconnect(s, now).active && later >= now + 5
    ensures var c1 := GetsetOp(s, None, key, first, now, None);
            var c2 := GetsetOp(c1.state, None, key, second, later, None);
            && c1.failed && c1.reply.None? && c1.state.server == s.server
            && !c2.failed && c2.state.active
            && c2.issued == [LoadCmd(GetsetScript), EvalShaCmd(Sha(GetsetScript), key, Plain(second))]
            && c2.reply == Some(GetOrInsert(s.server.data, key, second).1)
            && c2.state.getsetSha == Some(Sha(GetsetScript))
  {
    var s1 := Reconnect(s, now);
    var stale := EvalShaCmd(Sha(GetsetScript), key, Plain(first));
    assert GetsetCommands(s1, None, key, first) == [stale];
    IssueOne(s1.server, stale, None);
    var s2 := Reconnect(GetsetOp(s, None, key, first, now, None).state, later);
    var load, call := LoadCmd(GetsetScript), EvalShaCmd(Sha(GetsetScript), key, Plain(second));
    assert GetsetCommands(s2, None, key, second) == [load, call];
    IssueTwo(s2.server, load, call, None);
  }

  /** A second `getset` of the same key answers what the first stored,
      whatever its own block computes, and changes no data. */
  lemma GetsetKeepsFirst<K, V>(s: State<K, V>, ttl: Option<nat>, key: K, first: V, second: V, now: int, later: int)
    requires Consistent(s) && Reconnect(s, now).active
    ensures var c1 := GetsetOp(s, ttl, key, first, now, None);
            var c2 := GetsetOp(c1.state, ttl, key, second, later, None);
            && c2.reply == c1.reply
            && c2.state.server.data == c1.state.server.data
  {
    var c1 := GetsetOp(s, ttl, key, first, now, None);
    GetsetConforms(s, ttl, key, first, now);
    GetsetStaysConsistent(s, ttl, key, first, now, None);
    GetsetConforms(c1.state, ttl, key, second, later);
    GetOrInsertIdempotent(s.server.data, key, first, second);
  }

  /** A `get` after a successful `set` answers the value written. */
  lemma GetAfterSet<K, V>(s: State<K, V>, ttl: Option<nat>, key: K, value: V, now: int, later: int, failAt: Option<nat>)
    requires Reconnect(s, now).active && failAt != Some(0)
    ensures var c1 := SetOp(s, ttl, key, value, now, None);
            GetOp(c1.state, key, later, failAt).reply == Some(value)
  {
    SetWrites(s, ttl, key, value, now);
    IssueOne(SetOp(s, ttl, key, value, now, None).state.server, GetCmd(key), failAt);
  }

  class RedisStore<K(==), V> {
    /** The remote state behind `@connection`. */
    var server: Server<K, V>
    /** `@ttl`: the time to live given to every key written, if any. */
    const ttl: Option<nat>
    /** Whether `@active_connection` is set. */
    var active: bool
    /** `@disconnect_time`. */
    var disconnectTime: Option<int>
    /** `@getset_sha` and `@getset_ttl_sha`. */
    var getsetSha: Option<Sha>
    var getsetTtlSha: Option<Sha>
    /** The commands sent to the connection so far, in order. */
    ghost var commands: seq<Command<K, V>>
    /** The actions whose failure was logged so far, in order. */
    ghost var warnings: seq<Action>

    function Snapshot(): State<K, V>
      reads this
    {
      State(server, active, disconnectTime, getsetSha, getsetTtlSha)
    }

    ghost predicate Valid()
      reads this
    {
      Consistent(Snapshot())
    }

    /** `initialize(connection, ttl = nil)`: the connection starts active. */
    constructor (server: Server<K, V>, ttl: Option<nat>)
      ensures Valid() && this.ttl == ttl
      ensures Snapshot() == State(server, true, None, None, None)
      ensures commands == [] && warnings == []
    {
      this.server := server;
      this.ttl := ttl;
      active := true;
      disconnectTime := None;
      getsetSha := None;
      getsetTtlSha := None;
      commands := [];
      warnings := [];
    }

    /** The reconnect check at the start of `with_connection`. */
    method ReconnectIfDue(now: int)
      modifies this
      ensures Snapshot() == Reconnect(old(Snapshot()), now)
      ensures commands == old(commands) && warnings == old(warnings)
    {
      if disconnectTime.Some? {
        if now >= disconnectTime.value + 5 {
          active := true;
        }
      }
    }

    /** Send command `c`, at position `pos` of the block, on the connection. */
    method Send(c: Command<K, V>, pos: nat, failAt: Option<nat>) returns (raised: bool, reply: Option<V>)
      modifies this
      ensures raised == (failAt == Some(pos) || Rejects(old(server), c))
      ensures raised ==> server == old(server)
      ensures !raised ==> (server, reply) == Exec(old(server), c)
      ensures active == old(active) && disconnectTime == old(disconnectTime)
      ensures getsetSha == old(getsetSha) && getsetTtlSha == old(getsetTtlSha)
      ensures commands == old(commands) + [c] && warnings == old(warnings)
    {
      commands := commands + [c];
      raised := failAt == Some(pos) || Rejects(server, c);
      reply := None;
      if !raised {
        var res := Exec(server, c);
        server, reply := res.0, res.1;
      }
    }

    /** The `rescue` of `with_connection`. */
    method TripOn(action: Action, now: int)
      modifies this
      ensures Snapshot() == Trip(old(Snapshot()), now)
      ensures commands == old(commands) && warnings == old(warnings) + [action]
    {
      warnings := warnings + [action];
      active := false;
      getsetSha := None;
      disconnectTime := Some(now);
    }

    /** `set(key, value)`: answers `value` whatever happens. */
    method Set(key: K, value: V, now: int, failAt: Option<nat>) returns (r: V)
      requires Valid()
      modifies this
      ensures Valid() && r == value
      ensures var c := SetOp(old(Snapshot()), ttl, key, value, now, failAt);
              && Snapshot() == c.state
              && commands == old(commands) + c.issued
              && warnings == old(warnings) + (if c.failed then [SetAction] else [])
    {
      GuardStaysConsistent(Snapshot(), now, SetCommands(key, value, ttl), failAt);
      ReconnectIfDue(now);
      if active {
        SetBlock(key, value, now, failAt);
      }
      r := value;
    }

    /** The block of `set` on the active connection. */
    method SetBlock(key: K, value: V, now: int, failAt: Option<nat>)
      modifies this
      ensures var c := Attempt(old(Snapshot()), now, SetCommands(key, value, ttl), failAt);
              && Snapshot() == c.state
              && commands == old(commands) + c.issued
              && warnings == old(warnings) + (if c.failed then [SetAction] else [])
    {
      var first := SetCmd(key, value);
      if ttl.Some? {
        var second := ExpireCmd(key, ttl.value);
        assert SetCommands(key, value, ttl) == [first, second];
        IssueTwo(server, first, second, failAt);
        var raised, ignored := Send(first, 0, failAt);
        if !raised {
          raised, ignored := Send(second, 1, failAt);
        }
        if raised {
          TripOn(SetAction, now);
        }
      } else {
        assert SetCommands(key, value, ttl) == [first];
        IssueOne(server, first, failAt);
        var raised, ignored := Send(first, 0, failAt);
        if raised {
          TripOn(SetAction, now);
        }
      }
    }

    /** `get(key)`: the stored value, or nil when the connection is down or
        the command raised. */
    method Get(key: K, now: int, failAt: Option<nat>) returns (r: Option<V>)
      requires Valid()
      modifies this
      ensures Valid()
      ensures var c := GetOp(old(Snapshot()), key, now, failAt);
              && r == c.reply
              && Snapshot() == c.state
              && commands == old(commands) + c.issued
              && warnings == old(warnings) + (if c.failed then [GetAction] else [])
    {
      GuardStaysConsistent(Snapshot(), now, [GetCmd(key)], failAt);
      ReconnectIfDue(now);
      IssueOne(server, GetCmd(key), failAt);
      r := None;
      if active {
        var raised, reply := Send(GetCmd(key), 0, failAt);
        if raised {
          TripOn(GetAction, now);
        } else {
          r := reply;
        }
      }
    }

    /** `getset(key) { candidate }`: `blockRuns` counts the evaluations of
        the caller's block. */
    method Getset(key: K, candidate: V, now: int, failAt: Option<nat>) returns (r: Option<V>, blockRuns: nat)
      requires Valid()
      modifies this
      ensures Valid()
      ensures var c := GetsetOp(old(Snapshot()), ttl, key, candidate, now, failAt);
              && r == c.reply && blockRuns == c.blockRuns
              && Snapshot() == c.state
              && commands == old(commands) + c.issued
              && warnings == old(warnings) + (if c.failed then [GetsetAction] else [])
    {
      GetsetStaysConsistent(Snapshot(), ttl, key, candidate, now, failAt);
      ReconnectIfDue(now);
      r, blockRuns := None, 0;
      if active {
        r, blockRuns := GetsetBlock(key, candidate, now, failAt);
      }
    }

    /** The block of `getset` on the active connection: load the script
        unless its id is cached, then `evalsha` it. */
    method GetsetBlock(key: K, candidate: V, now: int, failAt: Option<nat>) returns (r: Option<V>, blockRuns: nat)
      modifies this
      ensures var c := GetsetAttempt(old(Snapshot()), ttl, key, candidate, now, failAt);
              && r == c.reply && blockRuns == c.blockRuns
              && Snapshot() == c.state
              && commands == old(commands) + c.issued
              && warnings == old(warnings) + (if c.failed then [GetsetAction] else [])
    {
      if CachedSha(Snapshot(), ttl).Some? {
        r, blockRuns := EvalCached(key, candidate, now, failAt);
      } else {
        r, blockRuns := LoadThenEval(key, candidate, now, failAt);
      }
    }

    /** `getset` with the script id already memoised: only the `evalsha`. */
    method EvalCached(key: K, candidate: V, now: int, failAt: Option<nat>) returns (r: Option<V>, blockRuns: nat)
      requires CachedSha(Snapshot(), ttl).Some?
      modifies this
      ensures var c := GetsetAttempt(old(Snapshot()), ttl, key, candidate, now, failAt);
              && r == c.reply && blockRuns == c.blockRuns
              && Snapshot() == c.state
              && commands == old(commands) + c.issued
              && warnings == old(warnings) + (if c.failed then [GetsetAction] else [])
    {
      var call := EvalShaCmd(CachedSha(Snapshot(), ttl).value, key, GetsetArgv(ttl, candidate));
      assert GetsetCommands(Snapshot(), ttl, key, candidate) == [call];
      IssueOne(server, call, failAt);
      blockRuns := 1;
      var raised;
      raised, r := Send(call, 0, failAt);
      if raised {
        r := None;
        TripOn(GetsetAction, now);
      }
    }

    /** `getset` without a memoised id: `script load`, memoise its answer,
        then the `evalsha`. */
    method LoadThenEval(key: K, candidate: V, now: int, failAt: Option<nat>) returns (r: Option<V>, blockRuns: nat)
      requires CachedSha(Snapshot(), ttl).None?
      modifies this
      ensures var c := GetsetAttempt(old(Snapshot()), ttl, key, candidate, now, failAt);
              && r == c.reply && blockRuns == c.blockRuns
              && Snapshot() == c.state
              && commands == old(commands) + c.issued
              && warnings == old(warnings) + (if c.failed then [GetsetAction] else [])
    {
      var script := GetsetScriptFor(ttl);
      var load, call := LoadCmd(script), EvalShaCmd(Sha(script), key, GetsetArgv(ttl, candidate));
      assert GetsetCommands(Snapshot(), ttl, key, candidate) == [load, call];
      IssueTwo(server, load, call, failAt);
      r, blockRuns := None, 0;
      var raised, ignored := Send(load, 0, failAt);
      if !raised {
        if ttl.Some? { getsetTtlSha := Some(Sha(script)); } else { getsetSha := Some(Sha(script)); }
        blockRuns := 1;
        raised, r := Send(call, 1, failAt);
      }
      if raised {
        r := None;
        TripOn(GetsetAction, now);
      }
    }

    /** `delete(key)`, delegated straight to `del`: no breaker; `raised`
        stands for the exception reaching the caller. */
    method Delete(key: K, fails: bool) returns (raised: bool)
      requires Valid()
      modifies this
      ensures Valid()
      ensures raised == fails
      ensures server == if fails then old(server) else Exec(old(server), DelCmd(key)).0
      ensures active == old(active) && disconnectTime == old(disconnectTime)
      ensures getsetSha == old(getsetSha) && getsetTtlSha == old(getsetTtlSha)
      ensures commands == old(commands) + [DelCmd(key)] && warnings == old(warnings)
    {
      commands := commands + [DelCmd(key)];
      raised := fails;
      if !fails {
        server := Exec(server, DelCmd(key)).0;
      }
    }

    /** `clear`, delegated straight to `flushall`: no breaker. */
    method Clear(fails: bool) returns (raised: bool)
      requires Valid()
      modifies this
      ensures Valid()
      ensures raised == fails
      ensures server == if fails then old(server) else old(server).(data := map[], expiring := map[])
      ensures active == old(active) && disconnectTime == old(disconnectTime)
      ensures getsetSha == old(getsetSha) && getsetTtlSha == old(getsetTtlSha)
      ensures commands == old(commands) + [FlushAllCmd] && warnings == old(warnings)
    {
      commands := commands + [FlushAllCmd];
      raised := fails;
      if !fails {
        server := Exec(server, FlushAllCmd).0;
      }
    }
  }

  /** The breaker over time, with no TTL: a `set` whose SET raises at
      second 0 still answers its value and logs one warning; a `get` at
      second 3 sends nothing and answers nil; at second 5 the connection is
      back, and the value written then is read back. */
  method BreakerScenario<K(==), V>(server: Server<K, V>, key: K, value: V)
    returns (first: V, during: Option<V>, after: Option<V>, ghost sent: seq<Command<K, V>>, ghost logged: seq<Action>)
    ensures first == value && during == None && after == Some(value)
    ensures sent == [SetCmd(key, value), SetCmd(key, value), GetCmd(key)]
    ensures logged == [SetAction]
  {
    var store := new RedisStore(server, None);
    first := store.Set(key, value, 0, Some(0));
    during := store.Get(key, 3, None);
    var again := store.Set(key, value, 5, None);
    after := store.Get(key, 5, None);
    sent, logged := store.commands, store.warnings;
    var s0 := State(server, true, None, None, None);
    assert SetCommands(key, value, None) == [SetCmd(key, value)];
    IssueOne(server, SetCmd(key, value), Some(0));
    var s1 := SetOp(s0, None, key, value, 0, Some(0)).state;
    assert s1 == State(server, false, Some(0), None, None);
    SilentWhileTripped(s1, None, key, value, 3, None);
    SetWrites(s1, None, key, value, 5);
    var s3 := SetOp(s1, None, key, value, 5, None).state;
    ReconnectsAfterWindow(s3, key, 5, None);
  }

  /** Two `getset`s of a fresh key, with no TTL: the first loads the script
      and stores its candidate; the second reuses the memoised id and
      answers the first candidate. */
  method ScriptCacheScenario<K(==), V>(server: Server<K, V>, key: K, a: V, b: V)
    returns (first: Option<V>, second: Option<V>, runs: nat, ghost sent: seq<Command<K, V>>)
    requires key !in server.data
    ensures first == Some(a) && second == Some(a) && runs == 1
    ensures sent == [LoadCmd(GetsetScript), EvalShaCmd(Sha(GetsetScript), key, Plain(a)),
                     EvalShaCmd(Sha(GetsetScript), key, Plain(b))]
  {
    var store := new RedisStore(server, None);
    var runs1;
    first, runs1 := store.Getset(key, a, 0, None);
    second, runs := store.Getset(key, b, 1, None);
    sent := store.commands;
    var s0 := State(server, true, None, None, None);
    var load, call := LoadCmd(GetsetScript), EvalShaCmd(Sha(GetsetScript), key, Plain(a));
    assert GetsetCommands(s0, None, key, a) == [load, call];
    IssueTwo(server, load, call, None);
    GetsetConforms(s0, None, key, a, 0);
    var s1 := GetsetOp(s0, None, key, a, 0, None).state;
    GetsetReusesSha(s1, None, key, b, 1, None);
    GetsetKeepsFirst(s0, None, key, a, b, 0, 1);
  }

  /** With a TTL, an `evalsha` that raises after a successful load trips the
      breaker but keeps the TTL script id: once the connection is back, the
      next `getset` sends the `evalsha` alone. */
  method TtlShaScenario<K(==), V>(server: Server<K, V>, key: K, a: V)
    returns (first: Option<V>, second: Option<V>, ghost sent: seq<Command<K, V>>)
    requires key !in server.data
    ensures first == None && second == Some(a)
    ensures sent == [LoadCmd(GetsetTtlScript), EvalShaCmd(Sha(GetsetTtlScript), key, WithTtl(a, 60)),
                     EvalShaCmd(Sha(GetsetTtlScript), key, WithTtl(a, 60))]
  {
    var store := new RedisStore(server, Some(60));
    var runs;
    first, runs := store.Getset(key, a, 0, Some(1));
    second, runs := store.Getset(key, a, 5, None);
    sent := store.commands;
    var s0 := State(server, true, None, None, None);
    var load, call := LoadCmd(GetsetTtlScript), EvalShaCmd(Sha(GetsetTtlScript), key, WithTtl(a, 60));
    assert GetsetCommands(s0, Some(60), key, a) == [load, call];
    IssueTwo(server, load, call, Some(1));
    GetsetFailureForgetsPlainShaOnly(s0, Some(60), key, a, 0);
    var s1 := GetsetOp(s0, Some(60), key, a, 0, Some(1)).state;
    GetsetStaysConsistent(s0, Some(60), key, a, 0, Some(1));
    GetsetReusesSha(s1, Some(60), key, a, 5, None);
    GetsetConforms(s1, Some(60), key, a, 5);
  }
}
