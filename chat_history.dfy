/**
 * The in-memory conversation memory: a per-session bounded message list
 * (`InMemoryChatHistory`) inside a bounded, lazily cleaned session table
 * (`InMemoryChatStore`). Python's `datetime.now()` is the explicit `now`
 * argument, counted in seconds; the session `dict` is a `map`.
 */
module ChatHistory {
  import opened Text

  const DefaultMaxMessages: nat := 20
  const DefaultMaxSessions: nat := 1000
  const DefaultCleanupIntervalMinutes: nat := 60
  const DefaultMaxAgeHours: nat := 24

  datatype Message = Message(content: string, kind: string, timestamp: int)

  /** The last `n` elements of `s`, or all of `s` when it is shorter. */
  function LastN<T>(s: seq<T>, n: nat): (r: seq<T>)
    ensures |r| == if |s| <= n then |s| else n
    ensures r == s[|s| - |r|..]
  {
    if |s| <= n then s else s[|s| - n..]
  }

  /** The message list after appending `m` to `msgs` under the cap `max`
      (`messages[-max:]`, which keeps everything when `max` is 0). */
  function Appended(msgs: seq<Message>, m: Message, max: nat): seq<Message> {
    var all := msgs + [m];
    if |all| > max && max > 0 then all[|all| - max..] else all
  }

  /** Appending keeps the newest `max` messages in order and ends with the new one. */
  lemma AppendedKeepsNewest(msgs: seq<Message>, m: Message, max: nat)
    requires max > 0
    ensures Appended(msgs, m, max) == LastN(msgs + [m], max)
    ensures |Appended(msgs, m, max)| <= max
    ensures Appended(msgs, m, max)[|Appended(msgs, m, max)| - 1] == m
  {
  }

  /** With a cap of 0 the slice `[-0:]` is the whole list, so nothing is ever dropped. */
  lemma AppendedZeroCapKeepsAll(msgs: seq<Message>, m: Message)
    ensures Appended(msgs, m, 0) == msgs + [m]
  {
  }

  /** `InMemoryChatHistory`. */
  class History {
    const sessionId: string
    const maxMessages: nat
    const createdAt: int
    var messages: seq<Message>
    var lastActivity: int

    /** A non-zero cap bounds the list. */
    ghost predicate Valid()
      reads this
    {
      maxMessages > 0 ==> |messages| <= maxMessages
    }

    constructor (sessionId: string, maxMessages: nat, now: int)
      ensures Valid()
      ensures this.sessionId == sessionId && this.maxMessages == maxMessages
      ensures messages == [] && createdAt == now && lastActivity == now
    {
      this.sessionId := sessionId;
      this.maxMessages := maxMessages;
      this.createdAt := now;
      messages := [];
      lastActivity := now;
    }

    /** `add_message`: append, stamp the activity time, then keep the newest `maxMessages`. */
    method AddMessage(content: string, kind: string, now: int)
      requires Valid()
      modifies this
      ensures Valid()
      ensures messages == Appended(old(messages), Message(content, kind, now), maxMessages)
      ensures messages != [] && messages[|messages| - 1] == Message(content, kind, now)
      ensures maxMessages > 0 ==> messages == LastN(old(messages) + [Message(content, kind, now)], maxMessages)
      ensures lastActivity == now
    {
      messages := messages + [Message(content, kind, now)];
      lastActivity := now;
      if |messages| > maxMessages {
        // Python's `messages[-0:]` is the whole list
        messages := if maxMessages == 0 then messages else messages[|messages| - maxMessages..];
      }
    }

    /** `get_recent_messages`: `messages[-count:]` for a positive count, otherwise all. */
    method GetRecentMessages(count: int) returns (r: seq<Message>)
      ensures count > 0 ==> r == LastN(messages, count)
      ensures count <= 0 ==> r == messages
    {
      if count > 0 {
        r := if count >= |messages| then messages else messages[|messages| - count..];
      } else {
        r := messages;
      }
    }

    /** `clear`: empty the list; the activity time is left as it was. */
    method Clear()
      modifies this
      ensures messages == [] && lastActivity == old(lastActivity)
    {
      messages := [];
    }

    /** `is_expired`: more than `maxAgeHours` hours since the last activity (strictly). */
    predicate IsExpired(now: int, maxAgeHours: nat)
      reads this
    {
      now - lastActivity > maxAgeHours * 3600
    }
  }

  /** The keys of `table` whose session has expired at `now`. */
  ghost function ExpiredIds(table: map<string, History>, now: int, maxAgeHours: nat): set<string>
    reads table.Values
  {
    set k | k in table && table[k].IsExpired(now, maxAgeHours)
  }

  /** The table a cleanup pass leaves: the expired sessions removed when it is due,
      the table as it was otherwise. */
  ghost predicate Cleaned(before: map<string, History>, after: map<string, History>, due: bool,
                          now: int, maxAgeHours: nat)
    reads before.Values
  {
    after == if due then before - ExpiredIds(before, now, maxAgeHours) else before
  }

  /** Sum of the message-list lengths of the sessions of `table` named in `ks`. */
  ghost function MessageTotal(table: map<string, History>, ks: set<string>): nat
    requires ks <= table.Keys
    reads table.Values
    decreases ks
  {
    if ks == {} then 0
    else
      var k :| k in ks;
      |table[k].messages| + MessageTotal(table, ks - {k})
  }

  /** The total does not depend on the order the keys are visited in. */
  lemma {:induction false} MessageTotalRemove(table: map<string, History>, ks: set<string>, k: string)
    requires ks <= table.Keys && k in ks
    ensures MessageTotal(table, ks) == |table[k].messages| + MessageTotal(table, ks - {k})
    decreases ks
  {
    var j :| j in ks && MessageTotal(table, ks) == |table[j].messages| + MessageTotal(table, ks - {j});
    if j != k {
      MessageTotalRemove(table, ks - {j}, k);
      MessageTotalRemove(table, ks - {k}, j);
      assert ks - {j} - {k} == ks - {k} - {j};
    }
  }

  /** The memory bound: with every session holding at most `cap` messages, the
      table holds at most `|ks| * cap` messages in all. */
  lemma {:induction false} MessageTotalBound(table: map<string, History>, ks: set<string>, cap: nat)
    requires ks <= table.Keys
    requires forall k :: k in ks ==> |table[k].messages| <= cap
    ensures MessageTotal(table, ks) <= |ks| * cap
    decreases ks
  {
    if ks != {} {
      var k :| k in ks && MessageTotal(table, ks) == |table[k].messages| + MessageTotal(table, ks - {k});
      MessageTotalBound(table, ks - {k}, cap);
    }
  }

  /** The keys listed in `keys`. */
  function Keys(keys: seq<string>): (r: set<string>)
    ensures forall k :: k in r <==> k in keys
  {
    set k | k in keys
  }

  /** Deleting the keys one at a time: after the first `j + 1` keys the table
      is the table after the first `j` less key `j`, which is still present. */
  lemma RemoveNextKey(table: map<string, History>, keys: seq<string>, j: nat)
    requires j < |keys|
    requires forall k :: k in keys ==> k in table
    requires forall a, b :: 0 <= a < b < |keys| ==> keys[a] != keys[b]
    ensures keys[j] in table - Keys(keys[..j])
    ensures table - Keys(keys[..j + 1]) == (table - Keys(keys[..j])) - {keys[j]}
  {
    assert keys[..j + 1] == keys[..j] + [keys[j]];
    assert keys[j] !in keys[..j];
    assert Keys(keys[..j + 1]) == Keys(keys[..j]) + {keys[j]};
  }

  /** What `get_stats` returns. */
  datatype Stats = Stats(activeSessions: nat, totalMessages: nat, maxSessions: nat, lastCleanup: int)

  /** `InMemoryChatStore`. */
  class Store {
    var sessions: map<string, History>
    const maxSessions: nat
    const cleanupIntervalMinutes: nat
    var lastCleanup: int

    /** The table respects its cap. */
    ghost predicate Valid()
      reads this
    {
      |sessions| <= maxSessions
    }

    constructor (maxSessions: nat, cleanupIntervalMinutes: nat, now: int)
      ensures Valid()
      ensures sessions == map[]
      ensures this.maxSessions == maxSessions && this.cleanupIntervalMinutes == cleanupIntervalMinutes
      ensures lastCleanup == now
    {
      sessions := map[];
      this.maxSessions := maxSessions;
      this.cleanupIntervalMinutes := cleanupIntervalMinutes;
      lastCleanup := now;
    }

    /** Whether a cleanup pass is due at `now` (`now - last_cleanup < interval` skips it). */
    predicate CleanupDue(now: int)
      reads this
    {
      now - lastCleanup >= cleanupIntervalMinutes * 60
    }

    /** The list comprehension of `_cleanup_expired_sessions`: the keys whose
        session has expired at `now`. */
    method ExpiredKeys(now: int, maxAgeHours: nat) returns (expired: seq<string>)
      ensures forall k :: k in expired <==> k in sessions && sessions[k].IsExpired(now, maxAgeHours)
      ensures forall i, j :: 0 <= i < j < |expired| ==> expired[i] != expired[j]
    {
      expired := [];
      var todo := sessions.Keys;
      while todo != {}
        invariant todo <= sessions.Keys
        invariant forall k :: k in expired <==> k in sessions && k !in todo && sessions[k].IsExpired(now, maxAgeHours)
        invariant forall i, j :: 0 <= i < j < |expired| ==> expired[i] != expired[j]
        decreases todo
      {
        var k :| k in todo;
        if sessions[k].IsExpired(now, maxAgeHours) {
          expired := expired + [k];
        }
        todo := todo - {k};
      }
    }

    /** `del self.sessions[k]` for a key that is present. */
    method Delete(k: string)
      requires Valid() && k in sessions
      modifies this
      ensures Valid()
      ensures sessions == old(sessions) - {k}
      ensures lastCleanup == old(lastCleanup)
    {
      assert (sessions - {k}).Keys == sessions.Keys - {k};
      sessions := sessions - {k};
    }

    /** The `del` loop over distinct keys of the table. */
    method DeleteAll(keys: seq<string>)
      requires Valid()
      requires forall k :: k in keys ==> k in sessions
      requires forall i, j :: 0 <= i < j < |keys| ==> keys[i] != keys[j]
      modifies this
      ensures Valid()
      ensures sessions == old(sessions) - Keys(keys)
      ensures lastCleanup == old(lastCleanup)
    {
      for j := 0 to |keys|
        invariant Valid()
        invariant sessions == old(sessions) - Keys(keys[..j])
        invariant lastCleanup == old(lastCleanup)
      {
        RemoveNextKey(old(sessions), keys, j);
        Delete(keys[j]);
      }
      assert keys[..|keys|] == keys;
    }

    /** `_cleanup_expired_sessions`: when due, delete exactly the expired sessions
        and record the time; otherwise change nothing. */
    method CleanupExpired(now: int, maxAgeHours: nat)
      requires Valid()
      modifies this
      ensures Valid()
      ensures Cleaned(old(sessions), sessions, old(CleanupDue(now)), now, maxAgeHours)
      ensures lastCleanup == if old(CleanupDue(now)) then now else old(lastCleanup)
    {
      if now - lastCleanup < cleanupIntervalMinutes * 60 {
        return;
      }
      var expired := ExpiredKeys(now, maxAgeHours);
      assert Keys(expired) == ExpiredIds(sessions, now, maxAgeHours);
      DeleteAll(expired);
      lastCleanup := now;
    }

    /** The key `min()` picks: one whose `lastActivity` is least. */
    method OldestSession() returns (oldest: string)
      requires sessions != map[]
      ensures oldest in sessions
      ensures forall k :: k in sessions ==> sessions[oldest].lastActivity <= sessions[k].lastActivity
    {
      oldest :| oldest in sessions;
      var todo := sessions.Keys - {oldest};
      while todo != {}
        invariant todo <= sessions.Keys && oldest in sessions
        invariant forall k :: k in sessions && k !in todo ==> sessions[oldest].lastActivity <= sessions[k].lastActivity
        decreases todo
      {
        var k :| k in todo;
        if sessions[k].lastActivity < sessions[oldest].lastActivity {
          oldest := k;
        }
        todo := todo - {k};
      }
    }

    /** Insert a fresh empty session under a new key. */
    method CreateSession(sessionId: string, now: int) returns (h: History)
      requires Valid() && sessionId !in sessions && |sessions| < maxSessions
      modifies this
      ensures Valid()
      ensures fresh(h) && sessions == old(sessions)[sessionId := h]
      ensures h.messages == [] && h.lastActivity == now && h.maxMessages == DefaultMaxMessages
      ensures h.sessionId == sessionId
      ensures lastCleanup == old(lastCleanup)
    {
      h := new History(sessionId, DefaultMaxMessages, now);
      sessions := sessions[sessionId := h];
    }

    /** The lookup half of `get_session_history`: return the session stored
        under `sessionId`, creating it (after evicting the least recently active
        session when the table is full) if it is absent. `null` stands for the
        `ValueError` that `min()` raises on an empty table when the cap is 0. */
    method FindOrCreate(sessionId: string, now: int) returns (h: History?, ghost evicted: Option<string>)
      requires Valid()
      modifies this
      ensures Valid()
      ensures lastCleanup == old(lastCleanup)
      // present: nothing is created or evicted
      ensures sessionId in old(sessions) ==>
        h == old(sessions)[sessionId] && sessions == old(sessions) && evicted == None
      // absent, room left: a fresh empty session is inserted
      ensures sessionId !in old(sessions) && |old(sessions)| < maxSessions ==>
        evicted == None && h != null && fresh(h) && sessions == old(sessions)[sessionId := h]
      // absent, table full: exactly one least recently active session is evicted first
      ensures sessionId !in old(sessions) && |old(sessions)| >= maxSessions && old(sessions) != map[] ==>
        evicted.Some? && evicted.value in old(sessions)
        && (forall k :: k in old(sessions) ==> old(sessions)[evicted.value].lastActivity <= old(sessions)[k].lastActivity)
        && h != null && fresh(h) && sessions == (old(sessions) - {evicted.value})[sessionId := h]
      // absent and the cap is 0: min() of an empty table raises
      ensures sessionId !in old(sessions) && |old(sessions)| >= maxSessions && old(sessions) == map[] ==>
        h == null && sessions == old(sessions)
      ensures h != null ==> sessionId in sessions && h == sessions[sessionId]
      ensures h != null && fresh(h) ==>
        h.messages == [] && h.lastActivity == now && h.maxMessages == DefaultMaxMessages && h.sessionId == sessionId
    {
      evicted := None;
      if sessionId in sessions {
        h := sessions[sessionId];
        return;
      }
      if |sessions| >= maxSessions {
        if sessions == map[] {
          h := null;
          return;
        }
        var oldest := OldestSession();
        Delete(oldest);
        evicted := Some(oldest);
      }
      h := CreateSession(sessionId, now);
    }

    /** `get_session_history`: run the cleanup (24 h age), then look the session up
        in the cleaned table, creating it if needed. */
    method GetSessionHistory(sessionId: string, now: int)
      returns (h: History?, ghost cleaned: map<string, History>, ghost evicted: Option<string>)
      requires Valid()
      modifies this
      ensures Valid()
      ensures Cleaned(old(sessions), cleaned, old(CleanupDue(now)), now, DefaultMaxAgeHours)
      ensures lastCleanup == if old(CleanupDue(now)) then now else old(lastCleanup)
      // present after cleanup: nothing is created or evicted
      ensures sessionId in cleaned ==> h == cleaned[sessionId] && sessions == cleaned && evicted == None
      // absent, room left: a fresh empty session is inserted
      ensures sessionId !in cleaned && |cleaned| < maxSessions ==>
        evicted == None && h != null && fresh(h) && sessions == cleaned[sessionId := h]
      // absent, table full: exactly one least recently active session is evicted first
      ensures sessionId !in cleaned && |cleaned| >= maxSessions && cleaned != map[] ==>
        evicted.Some? && evicted.value in cleaned
        && (forall k :: k in cleaned ==> cleaned[evicted.value].lastActivity <= cleaned[k].lastActivity)
        && h != null && fresh(h) && sessions == (cleaned - {evicted.value})[sessionId := h]
      // absent and the cap is 0: min() of an empty table raises
      ensures sessionId !in cleaned && |cleaned| >= maxSessions && cleaned == map[] ==>
        h == null && sessions == cleaned
      ensures h != null ==> sessionId in sessions && h == sessions[sessionId]
      ensures h != null && fresh(h) ==>
        h.messages == [] && h.lastActivity == now && h.maxMessages == DefaultMaxMessages && h.sessionId == sessionId
    {
      CleanupExpired(now, DefaultMaxAgeHours);
      cleaned := sessions;
      h, evicted := FindOrCreate(sessionId, now);
    }

    /** `clear_session`: delete the session; report whether it was there. */
    method ClearSession(sessionId: string) returns (found: bool)
      requires Valid()
      modifies this
      ensures Valid()
      ensures found == (sessionId in old(sessions))
      ensures sessions == old(sessions) - {sessionId}
      ensures lastCleanup == old(lastCleanup)
    {
      found := sessionId in sessions;
      if found {
        Delete(sessionId);
      } else {
        assert sessions - {sessionId} == sessions;
      }
    }

    /** `get_session_count`. */
    method GetSessionCount() returns (n: nat)
      ensures n == |sessions|
    {
      n := |sessions|;
    }

    /** `get_stats`: the session count and the total number of buffered messages. */
    method GetStats() returns (s: Stats)
      ensures s.activeSessions == |sessions|
      ensures s.totalMessages == MessageTotal(sessions, sessions.Keys)
      ensures s.maxSessions == maxSessions && s.lastCleanup == lastCleanup
    {
      var total := 0;
      var todo := sessions.Keys;
      while todo != {}
        invariant todo <= sessions.Keys
        invariant total + MessageTotal(sessions, todo) == MessageTotal(sessions, sessions.Keys)
        decreases todo
      {
        var k :| k in todo;
        MessageTotalRemove(sessions, todo, k);
        total := total + |sessions[k].messages|;
        todo := todo - {k};
      }
      s := Stats(|sessions|, total, maxSessions, lastCleanup);
    }
  }
}
