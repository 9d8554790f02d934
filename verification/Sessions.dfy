/**
 * The branching transcript store (src/storage/session-store.ts): the two insert statements with their
 * constraints, and the walk that assembles a session's history from its ancestors.
 */
module Sessions {
  import opened Options

  datatype Role = User | Assistant | System | Tool

  datatype Session = Session(
    id: string,
    title: Option<string>,
    parentSession: Option<string>,
    parentMessage: Option<string>,
    createdAt: int)

  datatype Message = Message(id: string, sessionId: string, role: Role, content: string, createdAt: int)

  /** Rows in order of insertion; a message's place is its sequence number. */
  datatype Db = Db(sessions: seq<Session>, messages: seq<Message>)

  datatype Error = CheckFailed | ForeignKeyFailed | IdConflict | LineageCycle | MissingBranchPoint
  datatype Result<T> = Ok(value: T) | Err(error: Error)

  // ---- reading -----------------------------------------------------------------------------------

  function Find(sessions: seq<Session>, id: string): (i: Option<nat>)
    ensures i.Some? ==> i.value < |sessions| && sessions[i.value].id == id
  {
    if sessions == [] then None
    else if sessions[|sessions| - 1].id == id then Some(|sessions| - 1)
    else Find(sessions[..|sessions| - 1], id)
  }

  function FindMessage(messages: seq<Message>, id: string): (i: Option<nat>)
    ensures i.Some? ==> i.value < |messages| && messages[i.value].id == id
  {
    if messages == [] then None
    else if messages[|messages| - 1].id == id then Some(|messages| - 1)
    else FindMessage(messages[..|messages| - 1], id)
  }

  /** A session's own messages, in sequence. */
  function Own(messages: seq<Message>, session: string): seq<Message> {
    if messages == [] then []
    else
      var last := messages[|messages| - 1];
      Own(messages[..|messages| - 1], session) + (if last.sessionId == session then [last] else [])
  }

  // ---- writing -----------------------------------------------------------------------------------

  predicate References(db: Db, session: string, message: string) {
    exists i | 0 <= i < |db.messages| :: db.messages[i].sessionId == session && db.messages[i].id == message
  }

  function CreateSession(db: Db, s: Session): (Db, Result<Session>) {
    if s.parentSession.Some? != s.parentMessage.Some? then (db, Err(CheckFailed))
    else if Find(db.sessions, s.id).Some? then
      (db, if db.sessions[Find(db.sessions, s.id).value] == s then Ok(s) else Err(IdConflict))
    else if s.parentSession.Some? && !References(db, s.parentSession.value, s.parentMessage.value)
    then (db, Err(ForeignKeyFailed))
    else (db.(sessions := db.sessions + [s]), Ok(s))
  }

  function AppendMessage(db: Db, m: Message): (Db, Result<Message>) {
    if FindMessage(db.messages, m.id).Some? then
      (db, if db.messages[FindMessage(db.messages, m.id).value] == m then Ok(m) else Err(IdConflict))
    else if Find(db.sessions, m.sessionId).None? then (db, Err(ForeignKeyFailed))
    else (db.(messages := db.messages + [m]), Ok(m))
  }

  datatype Op = Create(session: Session) | Append(message: Message)

  function Apply(db: Db, op: Op): Db {
    match op
    case Create(s) => CreateSession(db, s).0
    case Append(m) => AppendMessage(db, m).0
  }

  function Exec(db: Db, ops: seq<Op>): Db
    decreases |ops|
  {
    if ops == [] then db else Exec(Apply(db, ops[0]), ops[1..])
  }

  const EMPTY := Db([], [])

  // ---- the walk and the assembly, as the code makes them ------------------------------------------

  function Ids(sessions: seq<Session>): set<string> {
    set s | s in sessions :: s.id
  }

  /** Where the walk goes from a session: an empty parent id counts as none. */
  function Up(sessions: seq<Session>, s: Session): Option<nat> {
    if s.parentSession.None? || s.parentSession.value == "" then None else Find(sessions, s.parentSession.value)
  }

  /** The ancestors, root first; None for a cycle. */
  function Walk(sessions: seq<Session>, at: Option<nat>, seen: set<string>): Option<seq<Session>>
    requires at.Some? ==> at.value < |sessions|
    decreases |Ids(sessions) - seen|
  {
    if at.None? then Some([])
    else
      var s := sessions[at.value];
      if s.id in seen then None
      else
        FewerUnseen(sessions, s, seen);
        var line := Walk(sessions, Up(sessions, s), seen + {s.id});
        if line.None? then None else Some(line.value + [s])
  }

  lemma FewerUnseen(sessions: seq<Session>, s: Session, seen: set<string>)
    requires s in sessions && s.id !in seen
    ensures |Ids(sessions) - (seen + {s.id})| < |Ids(sessions) - seen|
  {
    assert s.id in Ids(sessions) - seen;
    Smaller(Ids(sessions) - (seen + {s.id}), Ids(sessions) - seen);
  }

  lemma Smaller(a: set<string>, b: set<string>)
    requires a < b
    ensures |a| < |b|
  {
    var x :| x in b && x !in a;
    assert a + {x} <= b;
    assert |a + {x}| == |a| + 1;
    AtMost(a + {x}, b);
  }

  lemma AtMost(a: set<string>, b: set<string>)
    requires a <= b
    ensures |a| <= |b|
  {
    assert b == a + (b - a);
  }

  /** A session's rows up to the branch point of the next session on the line; an empty id counts as none. */
  function Piece(messages: seq<Message>, s: Session, cut: Option<string>): Option<seq<Message>> {
    var rows := Own(messages, s.id);
    if cut.None? || cut.value == "" then Some(rows)
    else
      var p := FirstAt(rows, cut.value);
      if p == |rows| then None else Some(rows[..p + 1])
  }

  /** The first row with an id, or the number of rows. */
  function FirstAt(rows: seq<Message>, id: string): (p: nat)
    ensures p <= |rows|
  {
    if rows == [] || rows[0].id == id then 0 else 1 + FirstAt(rows[1..], id)
  }

  function Collect(messages: seq<Message>, line: seq<Session>, cut: Option<string>): Option<seq<Message>>
    decreases |line|
  {
    if line == [] then Some([])
    else
      var last := line[|line| - 1];
      var before, piece := Collect(messages, line[..|line| - 1], last.parentMessage), Piece(messages, last, cut);
      if before.None? || piece.None? then None else Some(before.value + piece.value)
  }

  function WithAncestors(db: Db, id: string): Result<seq<Message>> {
    var line := Walk(db.sessions, Find(db.sessions, id), {});
    if line.None? then Err(LineageCycle)
    else
      var out := Collect(db.messages, line.value, None);
      if out.None? then Err(MissingBranchPoint) else Ok(out.value)
  }

  lemma {:induction false} CollectPrefix(messages: seq<Message>, line: seq<Session>, n: nat, cut: Option<string>)
    requires n < |line| && Collect(messages, line[..n], line[n].parentMessage).None?
    ensures Collect(messages, line, cut).None?
    decreases |line|
  {
    if n < |line| - 1 {
      assert line[..|line| - 1][..n] == line[..n];
      CollectPrefix(messages, line[..|line| - 1], n, line[|line| - 1].parentMessage);
    }
  }

  /** The branch point at which the rows of the line's session before `n` end. */
  function CutAfter(line: seq<Session>, n: nat): Option<string> {
    if n < |line| then line[n].parentMessage else None
  }

  lemma CollectNext(messages: seq<Message>, line: seq<Session>, n: nat)
    requires n < |line| && Collect(messages, line[..n], CutAfter(line, n)).Some?
    ensures var before, piece := Collect(messages, line[..n], CutAfter(line, n)), Piece(messages, line[n], CutAfter(line, n + 1));
      Collect(messages, line[..n + 1], CutAfter(line, n + 1)) ==
        if piece.None? then None else Some(before.value + piece.value)
  {
    assert line[..n + 1][..n] == line[..n];
  }

  lemma CollectStops(messages: seq<Message>, line: seq<Session>, n: nat)
    requires n <= |line| && Collect(messages, line[..n], CutAfter(line, n)).None?
    ensures Collect(messages, line, None).None?
  {
    if n < |line| {
      CollectPrefix(messages, line, n, None);
    } else {
      assert line[..n] == line;
    }
  }

  function Onto(line: Option<seq<Session>>, found: seq<Session>): Option<seq<Session>> {
    if line.None? then None else Some(line.value + found)
  }

  lemma OntoStart(found: seq<Session>)
    ensures Onto(Some([]), found) == Some(found)
  {
    assert [] + found == found;
  }

  lemma OntoNothing(line: Option<seq<Session>>)
    ensures Onto(line, []) == line
  {
    if line.Some? {
      assert line.value + [] == line.value;
    }
  }

  lemma WalkStep(sessions: seq<Session>, at: nat, seen: set<string>, found: seq<Session>)
    requires at < |sessions| && sessions[at].id !in seen
    ensures var s := sessions[at];
      Onto(Walk(sessions, Some(at), seen), found) == Onto(Walk(sessions, Up(sessions, s), seen + {s.id}), [s] + found)
  {
    var s := sessions[at];
    var rest := Walk(sessions, Up(sessions, s), seen + {s.id});
    assert Walk(sessions, Some(at), seen) == Onto(rest, [s]);
    if rest.Some? {
      assert rest.value + [s] + found == rest.value + ([s] + found);
    }
  }

  // ---- the store ---------------------------------------------------------------------------------

  class SessionStore {
    var sessions: seq<Session>
    var messages: seq<Message>

    ghost function Tables(): Db
      reads this
    {
      Db(sessions, messages)
    }

    constructor ()
      ensures Tables() == EMPTY
    {
      sessions, messages := [], [];
    }

    method InsertSession(s: Session) returns (r: Result<Session>)
      modifies this
      ensures (Tables(), r) == CreateSession(old(Tables()), s)
    {
      if s.parentSession.Some? != s.parentMessage.Some? {
        return Err(CheckFailed);
      }
      var at := Find(sessions, s.id);
      if at.None? {
        if s.parentSession.Some? {
          var found := Referenced(s.parentSession.value, s.parentMessage.value);
          if !found {
            return Err(ForeignKeyFailed);
          }
        }
        sessions := sessions + [s];
        return Ok(s);
      }
      if sessions[at.value] != s {
        return Err(IdConflict);
      }
      return Ok(s);
    }

    method Referenced(session: string, message: string) returns (found: bool)
      ensures found == References(Tables(), session, message)
    {
      for i := 0 to |messages|
        invariant forall k | 0 <= k < i :: !(messages[k].sessionId == session && messages[k].id == message)
      {
        if messages[i].sessionId == session && messages[i].id == message {
          return true;
        }
      }
      return false;
    }

    method InsertMessage(m: Message) returns (r: Result<Message>)
      modifies this
      ensures (Tables(), r) == AppendMessage(old(Tables()), m)
    {
      var at := FindMessage(messages, m.id);
      if at.Some? {
        if messages[at.value] != m {
          return Err(IdConflict);
        }
        return Ok(m);
      }
      if Find(sessions, m.sessionId).None? {
        return Err(ForeignKeyFailed);
      }
      messages := messages + [m];
      return Ok(m);
    }

    method OwnMessages(id: string) returns (rows: seq<Message>)
      ensures rows == Own(messages, id)
    {
      rows := [];
      for n := 0 to |messages|
        invariant rows == Own(messages[..n], id)
      {
        assert messages[..n + 1][..n] == messages[..n];
        if messages[n].sessionId == id {
          rows := rows + [messages[n]];
        }
      }
      assert messages[..|messages|] == messages;
    }

    /** The loop up the ancestors, guarded against a cycle. */
    method Lineage(id: string) returns (line: Option<seq<Session>>)
      ensures line == Walk(sessions, Find(sessions, id), {})
    {
      var seen: set<string> := {};
      var found: seq<Session> := [];
      var at: Option<nat> := Find(sessions, id);
      OntoNothing(Walk(sessions, at, seen));
      while at.Some?
        invariant at.Some? ==> at.value < |sessions|
        invariant Walk(sessions, Find(sessions, id), {}) == Onto(Walk(sessions, at, seen), found)
        decreases |Ids(sessions) - seen|, at.Some?
      {
        var s := sessions[at.value];
        if s.id in seen {
          return None;
        }
        WalkStep(sessions, at.value, seen, found);
        FewerUnseen(sessions, s, seen);
        seen := seen + {s.id};
        found := [s] + found;
        at := if s.parentSession.None? || s.parentSession.value == "" then None else Find(sessions, s.parentSession.value);
      }
      OntoStart(found);
      line := Some(found);
    }

    /** The loop down the line: each session's rows through the next one's branch point. */
    method Assemble(line: seq<Session>) returns (out: Option<seq<Message>>)
      ensures out == Collect(messages, line, None)
    {
      var rows: seq<Message> := [];
      for n := 0 to |line|
        invariant Collect(messages, line[..n], CutAfter(line, n)) == Some(rows)
      {
        var own := OwnMessages(line[n].id);
        var cut := CutAfter(line, n + 1);
        CollectNext(messages, line, n);
        if cut.Some? && cut.value != "" {
          var p := FirstAt(own, cut.value);
          if p == |own| {
            CollectStops(messages, line, n + 1);
            return None;
          }
          rows := rows + own[..p + 1];
        } else {
          rows := rows + own;
        }
      }
      assert line[..|line|] == line;
      out := Some(rows);
    }

    method GetMessages(id: string, includeAncestors: bool) returns (r: Result<seq<Message>>)
      ensures r == if includeAncestors then WithAncestors(Tables(), id) else Ok(Own(messages, id))
    {
      if !includeAncestors {
        var rows := OwnMessages(id);
        return Ok(rows);
      }
      var line := Lineage(id);
      if line.None? {
        return Err(LineageCycle);
      }
      var out := Assemble(line.value);
      if out.None? {
        return Err(MissingBranchPoint);
      }
      return Ok(out.value);
    }
  }
}
