/**
 * The REST surface of server/routes.ts. A request is matched against the
 * route table in registration order (Express runs the first route whose
 * method and path pattern fit, and these handlers never pass the request
 * on); the handler then chooses the status from the parse, validation and
 * lookup results and calls the store.
 */
module Routes {
  import opened Wrappers
  import opened Schema
  import opened Text
  import opened Storage

  datatype Verb = GET | POST | PATCH | PUT | DELETE

  /** A path pattern segment: a fixed word, or a `:name` parameter. */
  datatype Segment = Lit(word: string) | Param

  datatype Handler =
    | CreateHandler
    | UpdateHandler
    | GetHandler
    | ListHandler
    | MoodHandler
    | CompletedHandler

  datatype Route = Route(verb: Verb, pattern: seq<Segment>, handler: Handler)

  /** The six routes, in the order registerRoutes registers them. */
  const Registered: seq<Route> := [
    Route(POST, [Lit("api"), Lit("sessions")], CreateHandler),
    Route(PATCH, [Lit("api"), Lit("sessions"), Param], UpdateHandler),
    Route(GET, [Lit("api"), Lit("sessions"), Param], GetHandler),
    Route(GET, [Lit("api"), Lit("sessions")], ListHandler),
    Route(GET, [Lit("api"), Lit("sessions"), Lit("mood"), Param], MoodHandler),
    Route(GET, [Lit("api"), Lit("sessions"), Lit("completed")], CompletedHandler)
  ]

  /** The same routes with the completed listing registered before `/:id`. */
  const Intended: seq<Route> := [
    Registered[0], Registered[1], Registered[5], Registered[2], Registered[3], Registered[4]
  ]

  /**
   * The values a path gives the pattern's parameters, or None when it does
   * not fit. A parameter takes one non-empty segment.
   */
  function Bind(pattern: seq<Segment>, path: seq<string>): (r: Option<seq<string>>)
    ensures r.Some? ==> |pattern| == |path|
    ensures r.Some? ==> forall i :: 0 <= i < |pattern| ==>
      if pattern[i].Lit? then path[i] == pattern[i].word else path[i] != ""
  {
    if pattern == [] then (if path == [] then Some([]) else None)
    else if path == [] then None
    else
      var ok := match pattern[0]
        case Lit(w) => path[0] == w
        case Param => path[0] != "";
      if !ok then None
      else
        match Bind(pattern[1..], path[1..])
        case None => None
        case Some(vs) =>
          var r := if pattern[0].Param? then [path[0]] + vs else vs;
          assert forall i :: 1 <= i < |pattern| ==> pattern[i] == pattern[1..][i - 1] && path[i] == path[1..][i - 1];
          Some(r)
  }

  /** The path fits the pattern: one segment per pattern segment, each fixed word equal, each parameter non-empty. */
  predicate Fits(pattern: seq<Segment>, path: seq<string>)
  {
    && |pattern| == |path|
    && forall i :: 0 <= i < |pattern| ==> if pattern[i].Lit? then path[i] == pattern[i].word else path[i] != ""
  }

  /** How many parameters the pattern has. */
  function ParamCount(pattern: seq<Segment>): nat
  {
    if pattern == [] then 0 else (if pattern[0].Param? then 1 else 0) + ParamCount(pattern[1..])
  }

  /**
   * A path binds exactly when it fits, and then the k-th value is the
   * segment under the pattern's k-th parameter (as req.params.id and
   * req.params.mood read it).
   */
  lemma {:induction false} BindSpec(pattern: seq<Segment>, path: seq<string>)
    ensures Bind(pattern, path).Some? <==> Fits(pattern, path)
    ensures Bind(pattern, path).Some? ==> |Bind(pattern, path).value| == ParamCount(pattern)
    ensures Bind(pattern, path).Some? ==> forall i :: 0 <= i < |pattern| && pattern[i].Param? ==>
      ParamCount(pattern[..i]) < |Bind(pattern, path).value| && Bind(pattern, path).value[ParamCount(pattern[..i])] == path[i]
    decreases |pattern|
  {
    if pattern != [] && path != [] {
      BindSpec(pattern[1..], path[1..]);
      if Fits(pattern, path) {
        assert Fits(pattern[1..], path[1..]) by {
          forall i | 0 <= i < |pattern[1..]|
            ensures if pattern[1..][i].Lit? then path[1..][i] == pattern[1..][i].word else path[1..][i] != ""
          {
            assert pattern[1..][i] == pattern[i + 1] && path[1..][i] == path[i + 1];
          }
        }
      }
      var r := Bind(pattern, path);
      if r.Some? {
        var vs := Bind(pattern[1..], path[1..]).value;
        var head := if pattern[0].Param? then 1 else 0;
        assert ParamCount(pattern[..0]) == 0 by { assert pattern[..0] == []; }
        forall i | 1 <= i < |pattern| && pattern[i].Param?
          ensures ParamCount(pattern[..i]) == head + ParamCount(pattern[1..][..i - 1])
        {
          assert pattern[..i][0] == pattern[0];
          assert pattern[..i][1..] == pattern[1..][..i - 1];
        }
        forall i | 1 <= i < |pattern| && pattern[i].Param?
          ensures ParamCount(pattern[..i]) < |r.value| && r.value[ParamCount(pattern[..i])] == path[i]
        {
          assert pattern[1..][i - 1] == pattern[i] && path[1..][i - 1] == path[i];
        }
      }
    }
  }

  predicate Accepts(route: Route, verb: Verb, path: seq<string>)
  {
    route.verb == verb && Bind(route.pattern, path).Some?
  }

  datatype Matched = Matched(index: nat, handler: Handler, params: seq<string>)

  /** The first route of `table`, from position `from` on, that accepts the request. */
  function FirstMatch(table: seq<Route>, verb: Verb, path: seq<string>, from: nat): (r: Option<Matched>)
    ensures r.Some? ==> from <= r.value.index < |table|
    ensures r.Some? ==> Accepts(table[r.value.index], verb, path)
    ensures r.Some? ==> r.value.handler == table[r.value.index].handler
    ensures r.Some? ==> Bind(table[r.value.index].pattern, path) == Some(r.value.params)
    ensures r.Some? ==> forall j :: from <= j < r.value.index ==> !Accepts(table[j], verb, path)
    ensures r.None? ==> forall j :: from <= j < |table| ==> !Accepts(table[j], verb, path)
    decreases |table| - from
  {
    if from >= |table| then None
    else if Accepts(table[from], verb, path) then
      Some(Matched(from, table[from].handler, Bind(table[from].pattern, path).value))
    else FirstMatch(table, verb, path, from + 1)
  }

  /**
   * A parsed body, as far as the handlers can tell: what insertSessionSchema
   * and updateSessionSchema make of it, None where the schema rejects it.
   */
  datatype Body = Body(asInsert: Option<InsertSession>, asUpdate: Option<UpdateSession>)

  datatype Request = Request(verb: Verb, path: seq<string>, body: Body)

  datatype Payload = Record(session: Session) | Records(sessions: seq<Session>) | Message(text: string)

  datatype Response = Response(status: int, payload: Payload)

  /**
   * What serving a request does: the reply (None when no route here fits,
   * and Express hands the request to whatever comes after these routes) and
   * the store afterwards.
   */
  datatype Outcome = Outcome(reply: Option<Response>, store: Store)

  const InvalidData: string := "Invalid session data"
  const InvalidId: string := "Invalid session ID"
  const NotFound: string := "Session not found"
  const InvalidMood: string := "Invalid mood"

  /** The first parameter; a missing one reads as the empty string, which parseInt and the mood check refuse like `undefined`. */
  function FirstParam(params: seq<string>): string
  {
    if |params| > 0 then params[0] else ""
  }

  function Reply(status: int, payload: Payload, st: Store): Outcome
  {
    Outcome(Some(Response(status, payload)), st)
  }

  /** POST /api/sessions. */
  function CreateRoute(body: Body, st: Store, now: int): (r: Outcome)
    requires WellFormed(st)
    ensures WellFormed(r.store)
  {
    match body.asInsert
    case None => Reply(400, Message(InvalidData), st)
    case Some(ins) =>
      var c := Create(st, ins, now);
      Reply(201, Record(c.session), c.store)
  }

  /** PATCH /api/sessions/:id: the id is parsed before the body is validated. */
  function UpdateRoute(idText: string, body: Body, st: Store, now: int): (r: Outcome)
    requires WellFormed(st)
    ensures WellFormed(r.store)
  {
    match ParseInt(idText)
    case None => Reply(400, Message(InvalidId), st)
    case Some(id) =>
      match body.asUpdate
      case None => Reply(400, Message(InvalidData), st)
      case Some(p) =>
        var u := Update(st, id, p, now);
        match u.session
        case None => Reply(404, Message(NotFound), u.store)
        case Some(s) => Reply(200, Record(s), u.store)
  }

  /** GET /api/sessions/:id. */
  function GetRoute(idText: string, st: Store): Outcome
  {
    match ParseInt(idText)
    case None => Reply(400, Message(InvalidId), st)
    case Some(id) =>
      match Get(st, id)
      case None => Reply(404, Message(NotFound), st)
      case Some(s) => Reply(200, Record(s), st)
  }

  /** GET /api/sessions/mood/:mood: only the three mood spellings reach the store. */
  function MoodRoute(moodText: string, st: Store): Outcome
    requires WellFormed(st)
  {
    if ParseMood(moodText).None? then Reply(400, Message(InvalidMood), st)
    else Reply(200, Records(ByMood(st, moodText)), st)
  }

  function Handle(h: Handler, params: seq<string>, body: Body, st: Store, now: int): (r: Outcome)
    requires WellFormed(st)
    ensures WellFormed(r.store)
  {
    match h
    case CreateHandler => CreateRoute(body, st, now)
    case UpdateHandler => UpdateRoute(FirstParam(params), body, st, now)
    case GetHandler => GetRoute(FirstParam(params), st)
    case ListHandler => Reply(200, Records(List(st)), st)
    case MoodHandler => MoodRoute(FirstParam(params), st)
    case CompletedHandler => Reply(200, Records(CompletedSessions(st)), st)
  }

  /** Serving one request with a route table, the store as a value. */
  function Dispatch(table: seq<Route>, req: Request, st: Store, now: int): (r: Outcome)
    requires WellFormed(st)
    ensures WellFormed(r.store)
    ensures r.reply.Some? ==> r.reply.value.status in {200, 201, 400, 404}
    ensures r.store != st ==> r.reply.Some? && r.reply.value.status in {200, 201}
  {
    match FirstMatch(table, req.verb, req.path, 0)
    case None => Outcome(None, st)
    case Some(m) => Handle(m.handler, m.params, req.body, st, now)
  }

  /** The server side of a request: the handlers as written, over the store object. */
  method Serve(storage: MemStorage, table: seq<Route>, req: Request, now: int) returns (reply: Option<Response>)
    requires storage.Valid()
    modifies storage
    ensures storage.Valid()
    ensures Outcome(reply, storage.Model()) == Dispatch(table, req, old(storage.Model()), now)
  {
    var m := FirstMatch(table, req.verb, req.path, 0);
    if m.None? {
      return None;
    }
    var param := FirstParam(m.value.params);
    match m.value.handler {
      case CreateHandler =>
        if req.body.asInsert.None? {
          return Some(Response(400, Message(InvalidData)));
        }
        var session := storage.CreateSession(req.body.asInsert.value, now);
        reply := Some(Response(201, Record(session)));
      case UpdateHandler =>
        var id := ParseInt(param);
        if id.None? {
          return Some(Response(400, Message(InvalidId)));
        }
        if req.body.asUpdate.None? {
          return Some(Response(400, Message(InvalidData)));
        }
        var session := storage.UpdateSession(id.value, req.body.asUpdate.value, now);
        if session.None? {
          return Some(Response(404, Message(NotFound)));
        }
        reply := Some(Response(200, Record(session.value)));
      case GetHandler =>
        var id := ParseInt(param);
        if id.None? {
          return Some(Response(400, Message(InvalidId)));
        }
        var session := storage.GetSession(id.value);
        if session.None? {
          return Some(Response(404, Message(NotFound)));
        }
        reply := Some(Response(200, Record(session.value)));
      case ListHandler =>
        var sessions := storage.ListSessions();
        reply := Some(Response(200, Records(sessions)));
      case MoodHandler =>
        if ParseMood(param).None? {
          return Some(Response(400, Message(InvalidMood)));
        }
        var sessions := storage.GetSessionsByMood(param);
        reply := Some(Response(200, Records(sessions)));
      case CompletedHandler =>
        var sessions := storage.GetCompletedSessions();
        reply := Some(Response(200, Records(sessions)));
    }
  }

  // Properties of the registered table.

  const Sessions: seq<string> := ["api", "sessions"]

  /** POST with a body that fails validation: 400, store unchanged. */
  lemma PostInvalidBody(body: Body, st: Store, now: int)
    requires WellFormed(st) && body.asInsert.None?
    ensures Dispatch(Registered, Request(POST, Sessions, body), st, now)
         == Outcome(Some(Response(400, Message(InvalidData))), st)
  {
    assert Accepts(Registered[0], POST, Sessions);
  }

  /** POST with a valid body: 201 with the record createSession stored, under a fresh id. */
  lemma PostValidBody(body: Body, st: Store, now: int)
    requires WellFormed(st) && body.asInsert.Some?
    ensures var c := Create(st, body.asInsert.value, now);
      && Dispatch(Registered, Request(POST, Sessions, body), st, now)
         == Outcome(Some(Response(201, Record(c.session))), c.store)
      && c.session.id !in st.records
  {
    assert Accepts(Registered[0], POST, Sessions);
  }

  /** The `/:id` routes of PATCH and GET catch every three-segment path whose last segment is non-empty. */
  lemma IdRouteMatches(verb: Verb, x: string)
    requires verb == PATCH || verb == GET
    requires x != ""
    ensures var m := FirstMatch(Registered, verb, Sessions + [x], 0);
      && m.Some? && m.value.params == [x]
      && m.value.handler == (if verb == PATCH then UpdateHandler else GetHandler)
  {
    var path := Sessions + [x];
    var pattern := Registered[1].pattern;
    assert pattern[2..] == [Param] && path[2..] == [x];
    assert Bind(pattern[2..][1..], path[2..][1..]) == Some([]);
    assert [path[2..][0]] + [] == [x];
    assert Bind(pattern[2..], path[2..]) == Some([x]);
    assert Bind(pattern[1..], path[1..]) == Some([x]);
    assert Bind(pattern, path) == Some([x]);
    assert !Accepts(Registered[0], verb, path);
    if verb == GET {
      assert !Accepts(Registered[1], verb, path);
      assert Accepts(Registered[2], verb, path);
    } else {
      assert Accepts(Registered[1], verb, path);
    }
  }

  /** An id segment that parseInt rejects: 400 before the body is looked at or the store touched. */
  lemma UnparsableId(verb: Verb, x: string, body: Body, st: Store, now: int)
    requires WellFormed(st)
    requires verb == PATCH || verb == GET
    requires x != "" && ParseInt(x).None?
    ensures Dispatch(Registered, Request(verb, Sessions + [x], body), st, now)
         == Outcome(Some(Response(400, Message(InvalidId))), st)
  {
    IdRouteMatches(verb, x);
  }

  /** PATCH with a numeric id and a valid body: 404 and no change if absent, else 200 with the merged record. */
  lemma PatchNumericId(x: string, body: Body, st: Store, now: int)
    requires WellFormed(st) && x != "" && ParseInt(x).Some? && body.asUpdate.Some?
    ensures var id := ParseInt(x).value;
      var r := Dispatch(Registered, Request(PATCH, Sessions + [x], body), st, now);
      && (id !in st.records ==> r == Outcome(Some(Response(404, Message(NotFound))), st))
      && (id in st.records ==>
            r.reply == Some(Response(200, Record(Merge(st.records[id], body.asUpdate.value, now))))
            && r.store == Update(st, id, body.asUpdate.value, now).store)
  {
    IdRouteMatches(PATCH, x);
  }

  /** PATCH with a numeric id and an invalid body: 400, store unchanged. */
  lemma PatchInvalidBody(x: string, body: Body, st: Store, now: int)
    requires WellFormed(st) && x != "" && ParseInt(x).Some? && body.asUpdate.None?
    ensures Dispatch(Registered, Request(PATCH, Sessions + [x], body), st, now)
         == Outcome(Some(Response(400, Message(InvalidData))), st)
  {
    IdRouteMatches(PATCH, x);
  }

  /** GET /api/sessions/:id with a numeric id: 404 for an unknown id, else 200 with the record. */
  lemma GetNumericId(x: string, body: Body, st: Store, now: int)
    requires WellFormed(st) && x != "" && ParseInt(x).Some?
    ensures var id := ParseInt(x).value;
      var r := Dispatch(Registered, Request(GET, Sessions + [x], body), st, now);
      && r.store == st
      && (id !in st.records ==> r.reply == Some(Response(404, Message(NotFound))))
      && (id in st.records ==> r.reply == Some(Response(200, Record(st.records[id]))))
  {
    IdRouteMatches(GET, x);
  }

  /** GET /api/sessions always answers 200 with every record. */
  lemma ListAlwaysOk(body: Body, st: Store, now: int)
    requires WellFormed(st)
    ensures Dispatch(Registered, Request(GET, Sessions, body), st, now)
         == Outcome(Some(Response(200, Records(List(st)))), st)
  {
    assert !Accepts(Registered[2], GET, Sessions);
    assert Accepts(Registered[3], GET, Sessions);
  }

  /** GET /api/sessions/mood/:mood: 400 unless a mood spelling, else 200 with the mood-filtered list. */
  lemma MoodListing(x: string, body: Body, st: Store, now: int)
    requires WellFormed(st) && x != ""
    ensures var r := Dispatch(Registered, Request(GET, Sessions + ["mood", x], body), st, now);
      && r.store == st
      && (ParseMood(x).None? ==> r.reply == Some(Response(400, Message(InvalidMood))))
      && (ParseMood(x).Some? ==> r.reply == Some(Response(200, Records(ByMood(st, x)))))
  {
    var path := Sessions + ["mood", x];
    var pattern := Registered[4].pattern;
    assert pattern[3..] == [Param] && path[3..] == [x];
    assert Bind(pattern[3..][1..], path[3..][1..]) == Some([]);
    assert [path[3..][0]] + [] == [x];
    assert Bind(pattern[3..], path[3..]) == Some([x]);
    assert Bind(pattern[2..], path[2..]) == Some([x]);
    assert Bind(pattern[1..], path[1..]) == Some([x]);
    assert Bind(pattern, path) == Some([x]);
    assert !Accepts(Registered[1], GET, path);
    assert !Accepts(Registered[2], GET, path);
    assert !Accepts(Registered[3], GET, path);
    assert Accepts(Registered[4], GET, path);
  }

  const CompletedPath: seq<string> := ["api", "sessions", "completed"]

  /** As registered, GET /api/sessions/completed is caught by `/:id`, and "completed" is NaN: 400. */
  lemma CompletedShadowed(body: Body, st: Store, now: int)
    requires WellFormed(st)
    ensures Dispatch(Registered, Request(GET, CompletedPath, body), st, now)
         == Outcome(Some(Response(400, Message(InvalidId))), st)
  {
    assert CompletedPath == Sessions + ["completed"];
    ParseIntRejectsWord("completed");
    UnparsableId(GET, "completed", body, st, now);
  }

  /** As registered, no request ever reaches the completed-sessions handler. */
  lemma CompletedUnreachable(verb: Verb, path: seq<string>)
    ensures var m := FirstMatch(Registered, verb, path, 0);
      m.Some? ==> m.value.handler != CompletedHandler
  {
    var m := FirstMatch(Registered, verb, path, 0);
    if m.Some? && m.value.index == 5 {
      var pattern := Registered[5].pattern;
      assert verb == GET && Bind(pattern, path).Some?;
      assert |path| == 3 && path[0] == pattern[0].word && path[1] == pattern[1].word && path[2] == pattern[2].word;
      assert path == Sessions + ["completed"];
      IdRouteMatches(GET, "completed");
      assert false;
    }
  }

  /** Registered first, the completed route answers 200 with exactly the completed records. */
  lemma CompletedServedWhenFirst(body: Body, st: Store, now: int)
    requires WellFormed(st)
    ensures Dispatch(Intended, Request(GET, CompletedPath, body), st, now)
         == Outcome(Some(Response(200, Records(CompletedSessions(st)))), st)
  {
    assert !Accepts(Intended[0], GET, CompletedPath);
    assert !Accepts(Intended[1], GET, CompletedPath);
    assert Accepts(Intended[2], GET, CompletedPath);
  }
}
