/**
 * The handlers of index.js as they run: one object holds the `track`
 * table and the session store, and each handler updates them in place in
 * the order the source does. Each method is proved to perform exactly the
 * step the `Tracking` module defines.
 */
module TrackingServer {
  import opened Wrappers
  import opened Tracking

  class Server {
    /** The rows of the `track` table. */
    var events: multiset<Event>
    /** The session store, by session identifier. */
    var sessions: map<SessionId, Session>

    function Current(): State
      reads this
    {
      State(events, sessions)
    }

    constructor ()
      ensures Current() == EmptyState
    {
      events := multiset{};
      sessions := map[];
    }

    /** POST /api/track/:resource/:behavior: mark, then tally, then insert. */
    method Track(sid: SessionId, r: Resource, b: Behavior, db: DbOutcome) returns (reply: Result<TallyMap, StoreError>)
      modifies this
      ensures Step(Current(), reply) == Tracking.Track(old(Current()), sid, r, b, db)
    {
      var s := SessionOf(Current(), sid);
      if r in s.behaviors {
        reply := if db.selectOk then Success(Tally(events, r)) else Failure(StoreUnavailable);
      } else {
        sessions := sessions[sid := s.(behaviors := s.behaviors[r := b])];
        var counts := Tally(events, r);
        if db.insertOk {
          events := events + multiset{Event(r, b)};
        }
        reply := if db.selectOk && db.insertOk then Success(counts) else Failure(StoreUnavailable);
      }
    }

    /** POST /api/progress/:module/:section/:page. */
    method SetProgress(sid: SessionId, m: ModuleName, section: int, page: int) returns (echo: (ModuleName, Position))
      modifies this`sessions
      ensures Step(Current(), echo) == Tracking.SetProgress(old(Current()), sid, m, section, page)
    {
      var s := SessionOf(Current(), sid);
      sessions := sessions[sid := s.(progress := s.progress[m := Position(section, page)])];
      echo := (m, Position(section, page));
    }

    /** GET /api/progress/:module: stores the default when nothing is saved. */
    method GetProgress(sid: SessionId, m: ModuleName) returns (pos: Position)
      modifies this`sessions
      ensures Step(Current(), pos) == Tracking.GetProgress(old(Current()), sid, m)
    {
      var s := SessionOf(Current(), sid);
      if m !in s.progress {
        s := s.(progress := s.progress[m := DefaultPosition]);
        sessions := sessions[sid := s];
      }
      pos := s.progress[m];
    }

    /** POST /api/username/:username. */
    method SetUsername(sid: SessionId, u: string)
      modifies this`sessions
      ensures Current() == Tracking.SetUsername(old(Current()), sid, u)
    {
      var s := SessionOf(Current(), sid);
      sessions := sessions[sid := s.(username := Some(u))];
    }

    /** GET /api/username. */
    method GetUsername(sid: SessionId) returns (name: Option<string>)
      ensures name == Tracking.GetUsername(Current(), sid)
      ensures name.Some? ==> name.value != "" && SessionOf(Current(), sid).username == name
    {
      var s := SessionOf(Current(), sid);
      if s.username.Some? && s.username.value != "" {
        name := s.username;
      } else {
        name := None;
      }
    }
  }

  /**
   * A client of the server: a retry in the same session appends no row and
   * reads the tally that already holds the first submission.
   */
  method RetryInSameSession(r: Resource, b1: Behavior, b2: Behavior) returns (first: Result<TallyMap, StoreError>, second: Result<TallyMap, StoreError>)
    ensures first == Success(map[])
    ensures second == Success(map[b1 := 1])
  {
    var server := new Server();
    first := server.Track("visitor", r, b1, DbUp);
    assert server.events == multiset{Event(r, b1)};
    second := server.Track("visitor", r, b2, DbUp);
    assert server.events == multiset{Event(r, b1)};
    TallyAppendSame(multiset{}, r, b1);
  }
}
