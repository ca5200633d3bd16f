/**
 * The server side of the training player (index.js): the `/api/track`
 * handler over the `track` table and the per-session state, and the
 * progress and username handlers over the same session record.
 *
 * Each handler is one atomic step over a `State`: the multiset of rows of
 * the `track` table and the map from session identifier to session record.
 * The outcome of the database queries is a parameter, since the database is
 * outside the model.
 */
module Tracking {
  import opened Wrappers

  type Resource = string
  type Behavior = string
  type ModuleName = string
  type SessionId = string

  /** One row of the `track` table. */
  datatype Event = Event(resource: Resource, behavior: Behavior)

  /** A saved position in a module. */
  datatype Position = Position(section: int, page: int)

  /** The server-held record of one visitor. */
  datatype Session = Session(
    behaviors: map<Resource, Behavior>,
    progress: map<ModuleName, Position>,
    username: Option<string>)

  /** A session that has not been written yet. */
  const NewSession := Session(map[], map[], None)

  /** The position returned for a module that has no saved progress. */
  const DefaultPosition := Position(1, 1)

  datatype State = State(events: multiset<Event>, sessions: map<SessionId, Session>)

  const EmptyState := State(multiset{}, map[])

  datatype StoreError = StoreUnavailable

  /** How the database answers the grouped SELECT and the INSERT of one request. */
  datatype DbOutcome = DbOutcome(selectOk: bool, insertOk: bool)

  const DbUp := DbOutcome(true, true)

  /** The state after a handler, with what it sends back. */
  datatype Step<T> = Step(next: State, reply: T)

  /** The grouped count: behavior to number of rows. */
  type TallyMap = map<Behavior, nat>

  function SessionOf(st: State, sid: SessionId): Session
  {
    if sid in st.sessions then st.sessions[sid] else NewSession
  }

  /** Number of rows recorded for `r` with behavior `b`. */
  function Count(events: multiset<Event>, r: Resource, b: Behavior): nat
  {
    events[Event(r, b)]
  }

  /**
   * `SELECT behavior, COUNT(*) FROM track WHERE resource = r GROUP BY behavior`:
   * one entry per behavior that has a row for `r`, holding its number of rows.
   */
  function Tally(events: multiset<Event>, r: Resource): (t: TallyMap)
    ensures forall b :: b in t <==> Event(r, b) in events
    ensures forall b :: b in t ==> t[b] == Count(events, r, b) && t[b] > 0
  {
    map b | b in (set e | e in events && e.resource == r :: e.behavior) :: Count(events, r, b)
  }

  /**
   * POST /api/track/:resource/:behavior. A session that already holds a
   * behavior for `r` only reads the tally. Otherwise the session is marked
   * first, then the tally is read, then the row is inserted, and the reply is
   * the tally read before the insert.
   */
  function Track(st: State, sid: SessionId, r: Resource, b: Behavior, db: DbOutcome): (out: Step<Result<TallyMap, StoreError>>)
    ensures r in SessionOf(out.next, sid).behaviors
    ensures SessionOf(out.next, sid).behaviors[r] ==
      if r in SessionOf(st, sid).behaviors then SessionOf(st, sid).behaviors[r] else b
    ensures out.next.events == st.events || out.next.events == st.events + multiset{Event(r, b)}
    ensures out.reply.Success? ==> out.reply.value == Tally(st.events, r)
  {
    var s := SessionOf(st, sid);
    if r in s.behaviors then
      Step(st, if db.selectOk then Success(Tally(st.events, r)) else Failure(StoreUnavailable))
    else
      var marked := st.sessions[sid := s.(behaviors := s.behaviors[r := b])];
      var counts := Tally(st.events, r);
      var events := if db.insertOk then st.events + multiset{Event(r, b)} else st.events;
      Step(State(events, marked), if db.selectOk && db.insertOk then Success(counts) else Failure(StoreUnavailable))
  }

  /** POST /api/progress/:module/:section/:page; the reply echoes the parameters. */
  function SetProgress(st: State, sid: SessionId, m: ModuleName, section: int, page: int): (out: Step<(ModuleName, Position)>)
    ensures m in SessionOf(out.next, sid).progress
    ensures SessionOf(out.next, sid).progress[m] == out.reply.1 == Position(section, page)
    ensures out.reply.0 == m
  {
    var s := SessionOf(st, sid);
    Step(st.(sessions := st.sessions[sid := s.(progress := s.progress[m := Position(section, page)])]),
         (m, Position(section, page)))
  }

  /** GET /api/progress/:module; a missing entry is stored as the default before it is returned. */
  function GetProgress(st: State, sid: SessionId, m: ModuleName): (out: Step<Position>)
    ensures m in SessionOf(out.next, sid).progress && SessionOf(out.next, sid).progress[m] == out.reply
    ensures m !in SessionOf(st, sid).progress ==> out.reply == DefaultPosition
  {
    var s := SessionOf(st, sid);
    if m in s.progress then
      Step(st, s.progress[m])
    else
      Step(st.(sessions := st.sessions[sid := s.(progress := s.progress[m := DefaultPosition])]), DefaultPosition)
  }

  /** POST /api/username/:username. */
  function SetUsername(st: State, sid: SessionId, u: string): (next: State)
    ensures SessionOf(next, sid).username == Some(u)
  {
    var s := SessionOf(st, sid);
    st.(sessions := st.sessions[sid := s.(username := Some(u))])
  }

  /** GET /api/username: the stored name when it is truthy, else null (an empty name reads as null). */
  function GetUsername(st: State, sid: SessionId): (name: Option<string>)
    ensures name.Some? ==> name.value != "" && name == SessionOf(st, sid).username
    ensures name.None? ==> SessionOf(st, sid).username in {None, Some("")}
  {
    var u := SessionOf(st, sid).username;
    if u.Some? && u.value != "" then u else None
  }

  /** Any request the handlers above serve. */
  datatype Request =
    | TrackRequest(sid: SessionId, resource: Resource, behavior: Behavior, db: DbOutcome)
    | SetProgressRequest(sid: SessionId, moduleName: ModuleName, section: int, page: int)
    | GetProgressRequest(sid: SessionId, moduleName: ModuleName)
    | SetUsernameRequest(sid: SessionId, username: string)
    | GetUsernameRequest(sid: SessionId)

  function Apply(st: State, req: Request): (next: State)
    ensures st.events <= next.events
    ensures |next.events| <= |st.events| + 1
  {
    match req
    case TrackRequest(sid, r, b, db) => Track(st, sid, r, b, db).next
    case SetProgressRequest(sid, m, section, page) => SetProgress(st, sid, m, section, page).next
    case GetProgressRequest(sid, m) => GetProgress(st, sid, m).next
    case SetUsernameRequest(sid, u) => SetUsername(st, sid, u)
    case GetUsernameRequest(_) => st
  }

  /** The state after serving `reqs` one after the other. */
  function Run(st: State, reqs: seq<Request>): (last: State)
    ensures st.events <= last.events
    ensures |last.events| <= |st.events| + |reqs|
    decreases |reqs|
  {
    if reqs == [] then st else Run(Apply(st, reqs[0]), reqs[1..])
  }

  /** A first submission: a track request for a resource its session has not answered. */
  predicate FirstSubmission(st: State, req: Request)
  {
    req.TrackRequest? && req.resource !in SessionOf(st, req.sid).behaviors
  }

  // ---------------------------------------------------------------------------
  // The grouped count
  // ---------------------------------------------------------------------------

  /** Inserting a row for (r, b) adds one to b's count for r and nothing else. */
  lemma TallyAppendSame(events: multiset<Event>, r: Resource, b: Behavior)
    ensures Tally(events + multiset{Event(r, b)}, r) == Tally(events, r)[b := Count(events, r, b) + 1]
  {
  }

  /** Inserting a row for one resource leaves every other resource's tally as it was. */
  lemma TallyAppendOther(events: multiset<Event>, r: Resource, b: Behavior, other: Resource)
    requires other != r
    ensures Tally(events + multiset{Event(r, b)}, other) == Tally(events, other)
  {
  }

  /** Counts never decrease while rows are only added. */
  lemma TallyMonotone(before: multiset<Event>, after: multiset<Event>, r: Resource)
    requires before <= after
    ensures forall b :: b in Tally(before, r) ==> b in Tally(after, r) && Tally(before, r)[b] <= Tally(after, r)[b]
  {
  }

  // ---------------------------------------------------------------------------
  // The track handler
  // ---------------------------------------------------------------------------

  /**
   * The first submission for (session, resource) marks the session, appends
   * exactly one row when the INSERT succeeds, and replies with the counts
   * read before that row was added.
   */
  lemma TrackFirstSubmission(st: State, sid: SessionId, r: Resource, b: Behavior, db: DbOutcome)
    requires r !in SessionOf(st, sid).behaviors
    ensures var out := Track(st, sid, r, b, db);
      && SessionOf(out.next, sid).behaviors == SessionOf(st, sid).behaviors[r := b]
      && out.next.events == (if db.insertOk then st.events + multiset{Event(r, b)} else st.events)
      && (out.reply.Success? <==> db.selectOk && db.insertOk)
      && (out.reply.Success? ==> out.reply.value == Tally(st.events, r))
      && SessionOf(out.next, sid).progress == SessionOf(st, sid).progress
      && SessionOf(out.next, sid).username == SessionOf(st, sid).username
      && forall other :: other != sid ==> SessionOf(out.next, other) == SessionOf(st, other)
  {
  }

  /**
   * On a successful first submission the reply leaves out the submitter's own
   * vote: the tally after the step is the reply with one more for `b`.
   */
  lemma OwnVoteExcluded(st: State, sid: SessionId, r: Resource, b: Behavior, db: DbOutcome)
    requires r !in SessionOf(st, sid).behaviors
    requires Track(st, sid, r, b, db).reply.Success?
    ensures var out := Track(st, sid, r, b, db);
      Tally(out.next.events, r) == out.reply.value[b := Count(st.events, r, b) + 1]
  {
  }

  /** A repeat submission, with any behavior, changes nothing and replies with the full tally. */
  lemma TrackRepeat(st: State, sid: SessionId, r: Resource, b: Behavior, db: DbOutcome)
    requires r in SessionOf(st, sid).behaviors
    ensures Track(st, sid, r, b, db).next == st
    ensures Track(st, sid, r, b, db).reply ==
      if db.selectOk then Success(Tally(st.events, r)) else Failure(StoreUnavailable)
  {
  }

  /**
   * Submitting twice in one session is the same as submitting once: the
   * second call changes nothing, whatever its behavior, and reads the tally
   * that includes the first call's row.
   */
  lemma TrackIdempotent(st: State, sid: SessionId, r: Resource, b1: Behavior, b2: Behavior, db1: DbOutcome, db2: DbOutcome)
    ensures var first := Track(st, sid, r, b1, db1);
      var second := Track(first.next, sid, r, b2, db2);
      && second.next == first.next
      && (db2.selectOk ==> second.reply == Success(Tally(first.next.events, r)))
  {
  }

  /**
   * The session mark is written before the database step and a failure of
   * that step does not clear it; a failed INSERT records no row.
   */
  lemma MarkSurvivesStoreFailure(st: State, sid: SessionId, r: Resource, b: Behavior, db: DbOutcome)
    requires r !in SessionOf(st, sid).behaviors
    requires !(db.selectOk && db.insertOk)
    ensures Track(st, sid, r, b, db).reply == Failure(StoreUnavailable)
    ensures r in SessionOf(Track(st, sid, r, b, db).next, sid).behaviors
    ensures SessionOf(Track(st, sid, r, b, db).next, sid).behaviors[r] == b
    ensures !db.insertOk ==> Track(st, sid, r, b, db).next.events == st.events
  {
  }

  // ---------------------------------------------------------------------------
  // Sequences of requests
  // ---------------------------------------------------------------------------

  /** Recorded behaviors are kept with their values and rows are only added. */
  ghost predicate Extends(before: State, after: State)
  {
    && before.events <= after.events
    && forall sid, r :: r in SessionOf(before, sid).behaviors ==>
         r in SessionOf(after, sid).behaviors && SessionOf(after, sid).behaviors[r] == SessionOf(before, sid).behaviors[r]
  }

  /** Each request appends a row exactly for a first submission whose INSERT succeeds. */
  lemma ApplyEvents(st: State, req: Request)
    ensures Apply(st, req).events ==
      if FirstSubmission(st, req) && req.db.insertOk then st.events + multiset{Event(req.resource, req.behavior)}
      else st.events
  {
  }

  lemma ApplyExtends(st: State, req: Request)
    ensures Extends(st, Apply(st, req))
  {
  }

  /**
   * Per session, a recorded behavior is write-once, and no row is ever
   * removed, so no count decreases, over any sequence of requests.
   */
  lemma {:induction false} RunExtends(st: State, reqs: seq<Request>)
    ensures Extends(st, Run(st, reqs))
    decreases |reqs|
  {
    if reqs != [] {
      var mid := Apply(st, reqs[0]);
      ApplyExtends(st, reqs[0]);
      RunExtends(mid, reqs[1..]);
    }
  }

  /**
   * Retries of a track request for one (session, resource), with any behaviors
   * and any database outcomes: only the first of them can append a row, and
   * afterwards the session has answered the resource.
   */
  lemma {:induction false} RetriesAppendAtMostOnce(st: State, sid: SessionId, r: Resource, reqs: seq<Request>)
    requires forall i :: 0 <= i < |reqs| ==> reqs[i].TrackRequest? && reqs[i].sid == sid && reqs[i].resource == r
    ensures |reqs| > 0 ==> Run(st, reqs).events == Apply(st, reqs[0]).events
    ensures |reqs| > 0 ==> r in SessionOf(Run(st, reqs), sid).behaviors
    decreases |reqs|
  {
    if |reqs| > 0 {
      var mid := Apply(st, reqs[0]);
      assert r in SessionOf(mid, sid).behaviors;
      RepeatsAppendNothing(mid, sid, r, reqs[1..]);
    }
  }

  /** Track requests for a resource the session has already answered append nothing. */
  lemma {:induction false} RepeatsAppendNothing(st: State, sid: SessionId, r: Resource, reqs: seq<Request>)
    requires r in SessionOf(st, sid).behaviors
    requires forall i :: 0 <= i < |reqs| ==> reqs[i].TrackRequest? && reqs[i].sid == sid && reqs[i].resource == r
    ensures Run(st, reqs) == st
    decreases |reqs|
  {
    if reqs != [] {
      assert Apply(st, reqs[0]) == st;
      RepeatsAppendNothing(st, sid, r, reqs[1..]);
    }
  }

  // ---------------------------------------------------------------------------
  // Progress and username
  // ---------------------------------------------------------------------------

  /** Setting progress overwrites only that module's entry of that session. */
  lemma SetProgressOverwritesOnly(st: State, sid: SessionId, m: ModuleName, section: int, page: int)
    ensures var next := SetProgress(st, sid, m, section, page).next;
      && SessionOf(next, sid).progress == SessionOf(st, sid).progress[m := Position(section, page)]
      && SessionOf(next, sid).behaviors == SessionOf(st, sid).behaviors
      && SessionOf(next, sid).username == SessionOf(st, sid).username
      && next.events == st.events
      && forall other :: other != sid ==> SessionOf(next, other) == SessionOf(st, other)
  {
  }

  /** Reading progress gives the stored entry or the default, and the default is stored. */
  lemma GetProgressStoredOrDefault(st: State, sid: SessionId, m: ModuleName)
    ensures var out := GetProgress(st, sid, m);
      && out.reply == (if m in SessionOf(st, sid).progress then SessionOf(st, sid).progress[m] else DefaultPosition)
      && SessionOf(out.next, sid).progress == SessionOf(st, sid).progress[m := out.reply]
      && SessionOf(out.next, sid).behaviors == SessionOf(st, sid).behaviors
      && SessionOf(out.next, sid).username == SessionOf(st, sid).username
      && out.next.events == st.events
      && forall other :: other != sid ==> SessionOf(out.next, other) == SessionOf(st, other)
  {
  }

  /** Progress read back after it was set is the value set. */
  lemma ProgressRoundTrip(st: State, sid: SessionId, m: ModuleName, section: int, page: int)
    ensures var next := SetProgress(st, sid, m, section, page).next;
      GetProgress(next, sid, m) == Step(next, Position(section, page))
  {
  }

  /** The username read back is the one set most recently, null when it is empty. */
  lemma UsernameLatest(st: State, sid: SessionId, u: string)
    ensures GetUsername(SetUsername(st, sid, u), sid) == if u == "" then None else Some(u)
    ensures forall other :: other != sid ==> GetUsername(SetUsername(st, sid, u), other) == GetUsername(st, other)
    ensures var next := SetUsername(st, sid, u);
      && SessionOf(next, sid).behaviors == SessionOf(st, sid).behaviors
      && SessionOf(next, sid).progress == SessionOf(st, sid).progress
      && next.events == st.events
      && forall other :: other != sid ==> SessionOf(next, other) == SessionOf(st, other)
  {
  }

  /** A session that never set a username reads null. */
  lemma UsernameUnset(st: State, sid: SessionId)
    requires SessionOf(st, sid).username == None
    ensures GetUsername(st, sid) == None
  {
  }

  // ---------------------------------------------------------------------------
  // A worked scenario
  // ---------------------------------------------------------------------------

  /**
   * Two visitors on a fresh resource. Because the tally is read before the
   * insert, each first submission replies without its own vote.
   */
  lemma ScenarioBankOfVvest()
    ensures var r := "bankofvvest";
      var s1 := Track(EmptyState, "s1", r, "yes", DbUp);
      var s2 := Track(s1.next, "s2", r, "no", DbUp);
      var s3 := Track(s2.next, "s1", r, "no", DbUp);
      && s1.reply == Success(map[])
      && s2.reply == Success(map["yes" := 1])
      && s3.reply == Success(map["yes" := 1, "no" := 1])
      && s3.next == s2.next
  {
    var r := "bankofvvest";
    var e0: multiset<Event> := multiset{};
    assert Tally(e0, r) == map[];
    TallyAppendSame(e0, r, "yes");
    var e1 := e0 + multiset{Event(r, "yes")};
    TallyAppendSame(e1, r, "no");
    assert Count(e1, r, "no") == 0;
  }
}
