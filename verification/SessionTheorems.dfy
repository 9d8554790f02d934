/**
 * What the transcript store promises: in every store its two statements can reach, the ancestor walk ends, and a
 * branch's history is each ancestor's prefix through its branch message, then the branch's own messages, whatever
 * happens elsewhere later. An empty id, which the walk takes for a missing one, is the exact exception.
 */
module SessionTheorems {
  import opened Options
  import opened Sessions

  // ---- the invariant -----------------------------------------------------------------------------

  ghost predicate UniqueSessions(sessions: seq<Session>) {
    forall i, j | 0 <= i < j < |sessions| :: sessions[i].id != sessions[j].id
  }

  ghost predicate UniqueMessages(messages: seq<Message>) {
    forall i, j | 0 <= i < j < |messages| :: messages[i].id != messages[j].id
  }

  /** A parent is an earlier session that holds the branch message. */
  ghost predicate Linked(db: Db, i: nat)
    requires i < |db.sessions|
  {
    var s := db.sessions[i];
    && (s.parentSession.Some? <==> s.parentMessage.Some?)
    && (s.parentSession.Some? ==>
          Find(db.sessions[..i], s.parentSession.value).Some? && References(db, s.parentSession.value, s.parentMessage.value))
  }

  ghost predicate Inv(db: Db) {
    && UniqueSessions(db.sessions) && UniqueMessages(db.messages)
    && (forall i | 0 <= i < |db.sessions| :: Linked(db, i))
    && (forall k | 0 <= k < |db.messages| :: Find(db.sessions, db.messages[k].sessionId).Some?)
  }

  lemma {:induction false} FindNone(sessions: seq<Session>, id: string)
    requires Find(sessions, id).None?
    ensures forall i | 0 <= i < |sessions| :: sessions[i].id != id
  {
    if sessions != [] {
      FindNone(sessions[..|sessions| - 1], id);
    }
  }

  lemma {:induction false} FindIs(sessions: seq<Session>, i: nat)
    requires UniqueSessions(sessions) && i < |sessions|
    ensures Find(sessions, sessions[i].id) == Some(i)
  {
    if i < |sessions| - 1 {
      FindIs(sessions[..|sessions| - 1], i);
    }
  }

  lemma {:induction false} FindMessageNone(messages: seq<Message>, id: string)
    requires FindMessage(messages, id).None?
    ensures forall i | 0 <= i < |messages| :: messages[i].id != id
  {
    if messages != [] {
      FindMessageNone(messages[..|messages| - 1], id);
    }
  }

  lemma FindAppend(sessions: seq<Session>, s: Session, id: string)
    ensures Find(sessions + [s], id) == if s.id == id then Some(|sessions|) else Find(sessions, id)
  {
    assert (sessions + [s])[..|sessions|] == sessions;
  }

  ghost predicate Extends(db: Db, more: Db) {
    db.sessions <= more.sessions && db.messages <= more.messages
  }

  lemma LinkedStays(db: Db, more: Db, i: nat)
    requires Extends(db, more) && i < |db.sessions| && Linked(db, i)
    ensures Linked(more, i)
  {
    assert more.sessions[..i] == db.sessions[..i];
  }

  lemma CreateKeeps(db: Db, s: Session)
    requires Inv(db)
    ensures Inv(CreateSession(db, s).0)
  {
    var more := CreateSession(db, s).0;
    if more != db {
      FindNone(db.sessions, s.id);
      forall i | 0 <= i < |more.sessions| ensures Linked(more, i) {
        if i < |db.sessions| {
          LinkedStays(db, more, i);
        } else {
          assert more.sessions[..i] == db.sessions;
          if s.parentSession.Some? {
            var k :| 0 <= k < |db.messages| && db.messages[k].sessionId == s.parentSession.value &&
                     db.messages[k].id == s.parentMessage.value;
          }
        }
      }
      forall k | 0 <= k < |more.messages| ensures Find(more.sessions, more.messages[k].sessionId).Some? {
        FindAppend(db.sessions, s, more.messages[k].sessionId);
      }
    }
  }

  lemma AppendKeeps(db: Db, m: Message)
    requires Inv(db)
    ensures Inv(AppendMessage(db, m).0)
  {
    var more := AppendMessage(db, m).0;
    if more != db {
      FindMessageNone(db.messages, m.id);
      forall i | 0 <= i < |more.sessions| ensures Linked(more, i) {
        LinkedStays(db, more, i);
      }
    }
  }

  /** Every run keeps the invariant and only ever adds rows. */
  lemma {:induction false} RunKeeps(db: Db, ops: seq<Op>)
    requires Inv(db)
    ensures Inv(Exec(db, ops)) && Extends(db, Exec(db, ops))
    decreases |ops|
  {
    if ops != [] {
      match ops[0] {
        case Create(s) => CreateKeeps(db, s);
        case Append(m) => AppendKeeps(db, m);
      }
      RunKeeps(Apply(db, ops[0]), ops[1..]);
    }
  }

  lemma ReachableInv(ops: seq<Op>)
    ensures Inv(Exec(EMPTY, ops))
  {
    RunKeeps(EMPTY, ops);
  }

  // ---- the history a branch should show -----------------------------------------------------------

  function Through(rows: seq<Message>, id: string): seq<Message> {
    var p := FirstAt(rows, id);
    if p < |rows| then rows[..p + 1] else rows
  }

  ghost function Parent(db: Db, i: nat): (j: nat)
    requires Inv(db) && i < |db.sessions| && db.sessions[i].parentSession.Some?
    ensures j < i && db.sessions[j].id == db.sessions[i].parentSession.value
  {
    assert Linked(db, i);
    Find(db.sessions[..i], db.sessions[i].parentSession.value).value
  }

  /** Each ancestor's messages through the branch message of the next session. */
  ghost function Inherited(db: Db, i: nat): seq<Message>
    requires Inv(db) && i < |db.sessions|
    decreases i
  {
    var s := db.sessions[i];
    if s.parentSession.None? then []
    else
      assert Linked(db, i);
      Inherited(db, Parent(db, i)) + Through(Own(db.messages, s.parentSession.value), s.parentMessage.value)
  }

  ghost function History(db: Db, i: nat): seq<Message>
    requires Inv(db) && i < |db.sessions|
  {
    Inherited(db, i) + Own(db.messages, db.sessions[i].id)
  }

  // ---- what the walk makes of it ------------------------------------------------------------------

  ghost predicate Stops(s: Session) {
    s.parentSession.None? || s.parentSession.value == ""
  }

  ghost function Shown(db: Db, i: nat): seq<Message>
    requires Inv(db) && i < |db.sessions|
    decreases i
  {
    var s := db.sessions[i];
    if Stops(s) then []
    else
      assert Linked(db, i);
      var rows := Own(db.messages, s.parentSession.value);
      Shown(db, Parent(db, i)) + (if s.parentMessage.value == "" then rows else Through(rows, s.parentMessage.value))
  }

  ghost function Line(db: Db, i: nat): seq<Session>
    requires Inv(db) && i < |db.sessions|
    decreases i
  {
    if Stops(db.sessions[i]) then [db.sessions[i]] else Line(db, Parent(db, i)) + [db.sessions[i]]
  }

  lemma {:induction false} OwnMembers(messages: seq<Message>, session: string, m: Message)
    ensures m in Own(messages, session) <==> m in messages && m.sessionId == session
  {
    if messages != [] {
      OwnMembers(messages[..|messages| - 1], session, m);
      assert messages == messages[..|messages| - 1] + [messages[|messages| - 1]];
    }
  }

  lemma {:induction false} FirstAtFinds(rows: seq<Message>, id: string)
    ensures FirstAt(rows, id) < |rows| <==> exists m | m in rows :: m.id == id
    ensures FirstAt(rows, id) < |rows| ==> rows[FirstAt(rows, id)].id == id
  {
    if rows != [] {
      FirstAtFinds(rows[1..], id);
      assert rows == [rows[0]] + rows[1..];
    }
  }

  /** A branch point is among its session's own messages. */
  lemma BranchPointPresent(db: Db, i: nat)
    requires Inv(db) && i < |db.sessions| && db.sessions[i].parentSession.Some?
    ensures db.sessions[i].parentMessage.Some?
    ensures var rows := Own(db.messages, db.sessions[i].parentSession.value);
      FirstAt(rows, db.sessions[i].parentMessage.value) < |rows|
  {
    assert Linked(db, i);
    var s := db.sessions[i];
    var rows := Own(db.messages, s.parentSession.value);
    var k :| 0 <= k < |db.messages| && db.messages[k].sessionId == s.parentSession.value &&
             db.messages[k].id == s.parentMessage.value;
    OwnMembers(db.messages, s.parentSession.value, db.messages[k]);
    FirstAtFinds(rows, s.parentMessage.value);
  }

  lemma ParentFound(db: Db, i: nat)
    requires Inv(db) && i < |db.sessions| && !Stops(db.sessions[i])
    ensures Up(db.sessions, db.sessions[i]) == Some(Parent(db, i))
  {
    FindIs(db.sessions, Parent(db, i));
  }

  /** The walk meets no cycle: it lists the ancestors, each earlier than the last. */
  lemma {:induction false} WalkLists(db: Db, i: nat, seen: set<string>)
    requires Inv(db) && i < |db.sessions|
    requires forall k | 0 <= k <= i :: db.sessions[k].id !in seen
    ensures Walk(db.sessions, Some(i), seen) == Some(Line(db, i))
    decreases i
  {
    var s := db.sessions[i];
    if !Stops(s) {
      ParentFound(db, i);
      WalkLists(db, Parent(db, i), seen + {s.id});
    } else {
      assert Walk(db.sessions, None, seen + {s.id}) == Some([]);
      assert [] + [s] == [s];
    }
  }

  lemma LinkPiece(db: Db, i: nat)
    requires Inv(db) && i < |db.sessions| && !Stops(db.sessions[i])
    ensures var s := db.sessions[i]; var rows := Own(db.messages, s.parentSession.value);
      && s.parentMessage.Some?
      && Piece(db.messages, db.sessions[Parent(db, i)], s.parentMessage) ==
           Some(if s.parentMessage.value == "" then rows else Through(rows, s.parentMessage.value))
  {
    BranchPointPresent(db, i);
  }

  lemma CollectOne(messages: seq<Message>, s: Session, cut: Option<string>)
    requires Piece(messages, s, cut).Some?
    ensures Collect(messages, [s], cut) == Some([] + Piece(messages, s, cut).value)
  {
    assert [s][..0] == [];
  }

  lemma CollectMore(messages: seq<Message>, line: seq<Session>, s: Session, cut: Option<string>)
    ensures Collect(messages, line + [s], cut) ==
      var before, piece := Collect(messages, line, s.parentMessage), Piece(messages, s, cut);
      if before.None? || piece.None? then None else Some(before.value + piece.value)
  {
    assert (line + [s])[..|line|] == line;
  }

  lemma {:induction false} LineCollects(db: Db, i: nat, cut: Option<string>)
    requires Inv(db) && i < |db.sessions| && Piece(db.messages, db.sessions[i], cut).Some?
    ensures Collect(db.messages, Line(db, i), cut) == Some(Shown(db, i) + Piece(db.messages, db.sessions[i], cut).value)
    decreases i
  {
    var s := db.sessions[i];
    if Stops(s) {
      CollectOne(db.messages, s, cut);
    } else {
      LinkPiece(db, i);
      LineCollects(db, Parent(db, i), s.parentMessage);
      CollectMore(db.messages, Line(db, Parent(db, i)), s, cut);
    }
  }

  /** In every reachable store the walk ends without a cycle or a missing branch point. */
  lemma WalkAlwaysSucceeds(db: Db, i: nat)
    requires Inv(db) && i < |db.sessions|
    ensures WithAncestors(db, db.sessions[i].id) == Ok(Shown(db, i) + Own(db.messages, db.sessions[i].id))
  {
    FindIs(db.sessions, i);
    WalkLists(db, i, {});
    LineCollects(db, i, None);
  }

  // ---- when it is the history ---------------------------------------------------------------------

  /**
   * No link on the way up is cut short by an empty parent id, and an empty branch message id only ever names the
   * last message of its session.
   */
  ghost predicate Faithful(db: Db, i: nat)
    requires Inv(db) && i < |db.sessions|
    decreases i
  {
    var s := db.sessions[i];
    s.parentSession.Some? ==>
      assert Linked(db, i);
      && s.parentSession.value != ""
      && (s.parentMessage.value == "" ==> EndsWith(Own(db.messages, s.parentSession.value), ""))
      && Faithful(db, Parent(db, i))
  }

  predicate EndsWith(rows: seq<Message>, id: string) {
    rows != [] && FirstAt(rows, id) == |rows| - 1
  }

  /** What a session inherits comes from earlier sessions only. */
  lemma {:induction false} InheritedFromEarlier(db: Db, i: nat, m: Message)
    requires Inv(db) && i < |db.sessions| && (m in Inherited(db, i) || m in Shown(db, i))
    ensures exists j | 0 <= j < i :: db.sessions[j].id == m.sessionId
    decreases i
  {
    var s := db.sessions[i];
    if s.parentSession.Some? {
      var j := Parent(db, i);
      if m in Inherited(db, j) || (!Stops(s) && m in Shown(db, j)) {
        InheritedFromEarlier(db, j, m);
      } else {
        OwnMembers(db.messages, s.parentSession.value, m);
      }
    }
  }

  lemma {:induction false} OwnAppend(a: seq<Message>, b: seq<Message>, session: string)
    ensures Own(a + b, session) == Own(a, session) + Own(b, session)
  {
    if b == [] {
      assert a + b == a;
    } else {
      assert (a + b)[..|a + b| - 1] == a + b[..|b| - 1];
      OwnAppend(a, b[..|b| - 1], session);
    }
  }

  lemma {:induction false} OwnOfOthers(rows: seq<Message>, session: string)
    requires forall m | m in rows :: m.sessionId != session
    ensures Own(rows, session) == []
  {
    if rows != [] {
      OwnOfOthers(rows[..|rows| - 1], session);
    }
  }

  lemma {:induction false} OwnOfSame(rows: seq<Message>, session: string)
    requires forall m | m in rows :: m.sessionId == session
    ensures Own(rows, session) == rows
  {
    if rows != [] {
      OwnOfSame(rows[..|rows| - 1], session);
      assert rows == rows[..|rows| - 1] + [rows[|rows| - 1]];
    }
  }

  // ---- a branch against its parent ---------------------------------------------------------------

  /** A session's own messages are, in order, those of the stored ones that carry its id. */
  lemma {:induction false} OwnInOrder(messages: seq<Message>, session: string, i: nat, j: nat) returns (a: nat, b: nat)
    requires i < j < |messages| && messages[i].sessionId == session && messages[j].sessionId == session
    ensures a < b < |Own(messages, session)|
    ensures Own(messages, session)[a] == messages[i] && Own(messages, session)[b] == messages[j]
  {
    var front := messages[..|messages| - 1];
    if j < |front| {
      a, b := OwnInOrder(front, session, i, j);
    } else {
      OwnMembers(front, session, front[i]);
      a :| 0 <= a < |Own(front, session)| && Own(front, session)[a] == front[i];
      b := |Own(front, session)|;
    }
  }

  lemma ShownFromOthers(db: Db, i: nat, m: Message)
    requires Inv(db) && i < |db.sessions| && m in Shown(db, i)
    ensures m.sessionId != db.sessions[i].id
  {
    InheritedFromEarlier(db, i, m);
  }

  /** The first row with an id is where the rows before it have none. */
  lemma {:induction false} FirstAtIsFirst(rows: seq<Message>, id: string)
    ensures forall k | 0 <= k < FirstAt(rows, id) :: rows[k].id != id
  {
    if rows != [] && rows[0].id != id {
      FirstAtIsFirst(rows[1..], id);
    }
  }

  /**
   * What a branch shows, against what its parent shows: the parent's transcript up to and including the message it
   * branched from, then the branch's own messages.
   */
  lemma BranchOfParent(db: Db, i: nat) returns (p: nat, k: nat)
    requires Inv(db) && i < |db.sessions| && !Stops(db.sessions[i]) && db.sessions[i].parentMessage != Some("")
    ensures p < i && Some(db.sessions[p].id) == db.sessions[i].parentSession
    ensures WithAncestors(db, db.sessions[p].id).Ok? && k < |WithAncestors(db, db.sessions[p].id).value|
    ensures var shown := WithAncestors(db, db.sessions[p].id).value;
      && Some(shown[k].id) == db.sessions[i].parentMessage && Some(shown[k].sessionId) == db.sessions[i].parentSession
      && (forall n | 0 <= n < k && shown[n].sessionId == shown[k].sessionId :: shown[n].id != shown[k].id)
      && WithAncestors(db, db.sessions[i].id) == Ok(shown[..k + 1] + Own(db.messages, db.sessions[i].id))
  {
    p := Parent(db, i);
    WalkAlwaysSucceeds(db, i);
    WalkAlwaysSucceeds(db, p);
    BranchPointPresent(db, i);
    var rows, id := Own(db.messages, db.sessions[p].id), db.sessions[i].parentMessage.value;
    var before := Shown(db, p);
    k := |before| + FirstAt(rows, id);
    FirstAtFinds(rows, id);
    FirstAtIsFirst(rows, id);
    OwnMembers(db.messages, db.sessions[p].id, rows[FirstAt(rows, id)]);
    assert (before + rows)[..k + 1] == before + rows[..FirstAt(rows, id) + 1];
    forall n | 0 <= n < k && (before + rows)[n].sessionId == db.sessions[p].id ensures (before + rows)[n].id != id {
      if n < |before| {
        ShownFromOthers(db, p, before[n]);
      }
    }
  }

  /** Two lists that split into others' messages and one session's agree only where both parts do. */
  lemma SplitBySession(a: seq<Message>, b: seq<Message>, c: seq<Message>, d: seq<Message>, session: string)
    requires a + b == c + d
    requires (forall m | m in a :: m.sessionId != session) && (forall m | m in c :: m.sessionId != session)
    requires (forall m | m in b :: m.sessionId == session) && (forall m | m in d :: m.sessionId == session)
    ensures a == c && b == d
  {
    OwnAppend(a, b, session);
    OwnAppend(c, d, session);
    OwnOfOthers(a, session);
    OwnOfOthers(c, session);
    OwnOfSame(b, session);
    OwnOfSame(d, session);
    assert a == (a + b)[..|a|] && c == (c + d)[..|c|];
  }

  lemma PartsOf(db: Db, i: nat)
    requires Inv(db) && i < |db.sessions| && db.sessions[i].parentSession.Some?
    ensures var p := db.sessions[i].parentSession.value;
      && (forall m | m in Inherited(db, Parent(db, i)) || m in Shown(db, Parent(db, i)) :: m.sessionId != p)
      && (forall m | m in Own(db.messages, p) :: m.sessionId == p)
  {
    var j, p := Parent(db, i), db.sessions[i].parentSession.value;
    forall m | m in Inherited(db, j) || m in Shown(db, j) ensures m.sessionId != p {
      InheritedFromEarlier(db, j, m);
    }
    forall m | m in Own(db.messages, p) ensures m.sessionId == p {
      OwnMembers(db.messages, p, m);
    }
  }

  lemma {:induction false} ShownIsInheritedIff(db: Db, i: nat)
    requires Inv(db) && i < |db.sessions|
    ensures Shown(db, i) == Inherited(db, i) <==> Faithful(db, i)
    decreases i
  {
    var s := db.sessions[i];
    if s.parentSession.Some? {
      BranchPointPresent(db, i);
      if s.parentSession.value != "" {
        var j := Parent(db, i);
        ShownIsInheritedIff(db, j);
        PartsOf(db, i);
        var rows := Own(db.messages, s.parentSession.value);
        var prefix := Through(rows, s.parentMessage.value);
        var shown := if s.parentMessage.value == "" then rows else prefix;
        assert forall m | m in prefix :: m in rows;
        if Shown(db, i) == Inherited(db, i) {
          SplitBySession(Shown(db, j), shown, Inherited(db, j), prefix, s.parentSession.value);
        }
        assert prefix == rows <==> EndsWith(rows, s.parentMessage.value);
      }
    }
  }

  /** `getMessages` with ancestors returns the history exactly where no empty id interferes. */
  lemma MessagesAreHistoryIff(db: Db, i: nat)
    requires Inv(db) && i < |db.sessions|
    ensures WithAncestors(db, db.sessions[i].id) == Ok(History(db, i)) <==> Faithful(db, i)
  {
    WalkAlwaysSucceeds(db, i);
    ShownIsInheritedIff(db, i);
    var own := Own(db.messages, db.sessions[i].id);
    if Shown(db, i) + own == Inherited(db, i) + own {
      assert |Shown(db, i)| == |Inherited(db, i)|;
      assert Shown(db, i) == (Shown(db, i) + own)[..|Shown(db, i)|];
      assert Inherited(db, i) == (Inherited(db, i) + own)[..|Inherited(db, i)|];
    }
  }

  // ---- later changes elsewhere --------------------------------------------------------------------

  lemma {:induction false} FirstAtStays(a: seq<Message>, b: seq<Message>, id: string)
    requires FirstAt(a, id) < |a|
    ensures FirstAt(a + b, id) == FirstAt(a, id)
  {
    if a[0].id != id {
      assert (a + b)[1..] == a[1..] + b;
      FirstAtStays(a[1..], b, id);
    }
  }

  lemma ThroughStays(a: seq<Message>, b: seq<Message>, id: string)
    requires FirstAt(a, id) < |a|
    ensures Through(a + b, id) == Through(a, id)
  {
    FirstAtStays(a, b, id);
  }

  lemma OwnGrows(db: Db, more: Db, session: string)
    requires Extends(db, more)
    ensures Own(more.messages, session) ==
      Own(db.messages, session) + Own(more.messages[|db.messages|..], session)
  {
    assert more.messages == db.messages + more.messages[|db.messages|..];
    OwnAppend(db.messages, more.messages[|db.messages|..], session);
  }

  lemma SameParent(db: Db, more: Db, i: nat)
    requires Inv(db) && Inv(more) && Extends(db, more) && i < |db.sessions|
    ensures more.sessions[i] == db.sessions[i]
    ensures db.sessions[i].parentSession.Some? ==> Parent(more, i) == Parent(db, i)
  {
    assert more.sessions[..i] == db.sessions[..i];
  }

  lemma {:induction false} InheritedStays(db: Db, more: Db, i: nat)
    requires Inv(db) && Inv(more) && Extends(db, more) && i < |db.sessions|
    ensures Inherited(more, i) == Inherited(db, i)
    decreases i
  {
    var s := db.sessions[i];
    SameParent(db, more, i);
    if s.parentSession.Some? {
      InheritedStays(db, more, Parent(db, i));
      BranchPointPresent(db, i);
      OwnGrows(db, more, s.parentSession.value);
      ThroughStays(Own(db.messages, s.parentSession.value),
                   Own(more.messages[|db.messages|..], s.parentSession.value), s.parentMessage.value);
    }
  }

  /** Up to where the walk stops, no link branches from a message with an empty id. */
  ghost predicate NoOpenCut(db: Db, i: nat)
    requires Inv(db) && i < |db.sessions|
    decreases i
  {
    var s := db.sessions[i];
    Stops(s) || (assert Linked(db, i); s.parentMessage.value != "" && NoOpenCut(db, Parent(db, i)))
  }

  /** No session and no message has an empty id: what a caller can see to. */
  predicate NamedIds(db: Db) {
    && (forall i | 0 <= i < |db.sessions| :: db.sessions[i].id != "")
    && (forall k | 0 <= k < |db.messages| :: db.messages[k].id != "")
  }

  /** Where no id is empty, every session shows its history and keeps showing it. */
  lemma {:induction false} NamedIdsSuffice(db: Db, i: nat)
    requires Inv(db) && i < |db.sessions| && NamedIds(db)
    ensures Faithful(db, i) && NoOpenCut(db, i)
    decreases i
  {
    var s := db.sessions[i];
    if s.parentSession.Some? {
      assert Linked(db, i);
      var k :| 0 <= k < |db.messages| && db.messages[k].sessionId == s.parentSession.value &&
               db.messages[k].id == s.parentMessage.value;
      NamedIdsSuffice(db, Parent(db, i));
    }
  }

  lemma {:induction false} ShownStays(db: Db, more: Db, i: nat)
    requires Inv(db) && Inv(more) && Extends(db, more) && i < |db.sessions| && NoOpenCut(db, i)
    ensures Shown(more, i) == Shown(db, i)
    decreases i
  {
    var s := db.sessions[i];
    SameParent(db, more, i);
    if !Stops(s) {
      ShownStays(db, more, Parent(db, i));
      BranchPointPresent(db, i);
      OwnGrows(db, more, s.parentSession.value);
      ThroughStays(Own(db.messages, s.parentSession.value),
                   Own(more.messages[|db.messages|..], s.parentSession.value), s.parentMessage.value);
    }
  }

  lemma StillShown(db: Db, more: Db, i: nat)
    requires Inv(db) && Inv(more) && Extends(db, more) && i < |db.sessions| && NoOpenCut(db, i)
    ensures WithAncestors(more, db.sessions[i].id) == Ok(Shown(db, i) + Own(more.messages, db.sessions[i].id))
  {
    SameParent(db, more, i);
    WalkAlwaysSucceeds(more, i);
    ShownStays(db, more, i);
  }

  /**
   * After any later run, a session without an open cut shows what it showed, followed by the messages appended to
   * it since: nothing appended to any other session, ancestors included, ever appears.
   */
  lemma LaterRunsOnlyExtend(db: Db, ops: seq<Op>, i: nat)
    requires Inv(db) && i < |db.sessions| && NoOpenCut(db, i)
    ensures var more := Exec(db, ops); var id := db.sessions[i].id;
      var shown := Shown(db, i) + Own(db.messages, id);
      && Extends(db, more)
      && WithAncestors(db, id) == Ok(shown)
      && WithAncestors(more, id) == Ok(shown + Own(more.messages[|db.messages|..], id))
      && (Faithful(db, i) ==> shown == History(db, i))
  {
    var more, id := Exec(db, ops), db.sessions[i].id;
    RunKeeps(db, ops);
    WalkAlwaysSucceeds(db, i);
    StillShown(db, more, i);
    ShownIsInheritedIff(db, i);
    Regroup(Shown(db, i), Own(db.messages, id), Own(more.messages[|db.messages|..], id));
    OwnGrows(db, more, id);
  }

  lemma Regroup(a: seq<Message>, b: seq<Message>, c: seq<Message>)
    ensures a + (b + c) == a + b + c
  {
  }

  /** The session whose later messages an open cut lets through. */
  ghost function OpenParent(db: Db, i: nat): string
    requires Inv(db) && i < |db.sessions| && !NoOpenCut(db, i)
    decreases i
  {
    var s := db.sessions[i];
    assert Linked(db, i);
    if s.parentMessage.value == "" then s.parentSession.value else OpenParent(db, Parent(db, i))
  }

  lemma {:induction false} OpenParentExists(db: Db, i: nat)
    requires Inv(db) && i < |db.sessions| && !NoOpenCut(db, i)
    ensures Find(db.sessions, OpenParent(db, i)).Some?
    decreases i
  {
    assert Linked(db, i);
    if db.sessions[i].parentMessage.value == "" {
      ParentFound(db, i);
    } else {
      OpenParentExists(db, Parent(db, i));
    }
  }

  lemma OneMoreOwn(db: Db, m: Message)
    ensures Own(db.messages + [m], m.sessionId) == Own(db.messages, m.sessionId) + [m]
  {
    OwnAppend(db.messages, [m], m.sessionId);
    OwnOfOne(m, m.sessionId);
  }

  /** One more message in that session makes what is shown longer. */
  lemma {:induction false} OpenCutGrows(db: Db, more: Db, m: Message, i: nat)
    requires Inv(db) && Inv(more) && more == db.(messages := db.messages + [m])
    requires i < |db.sessions| && !NoOpenCut(db, i) && m.sessionId == OpenParent(db, i)
    ensures |Shown(more, i)| > |Shown(db, i)|
    decreases i
  {
    var s := db.sessions[i];
    assert Linked(db, i);
    SameParent(db, more, i);
    if s.parentMessage.value == "" {
      ShownGrows(db, more, Parent(db, i));
      OneMoreOwn(db, m);
    } else {
      OpenCutGrows(db, more, m, Parent(db, i));
      BranchPointPresent(db, i);
      OwnGrows(db, more, s.parentSession.value);
      ThroughStays(Own(db.messages, s.parentSession.value),
                   Own(more.messages[|db.messages|..], s.parentSession.value), s.parentMessage.value);
    }
  }

  function LongestId(messages: seq<Message>): nat {
    if messages == [] then 0
    else
      var rest, last := LongestId(messages[..|messages| - 1]), |messages[|messages| - 1].id|;
      if last > rest then last else rest
  }

  lemma {:induction false} LongerIsFresh(messages: seq<Message>, id: string)
    requires |id| > LongestId(messages)
    ensures FindMessage(messages, id).None?
  {
    if messages != [] {
      LongerIsFresh(messages[..|messages| - 1], id);
    }
  }

  /** Whatever is appended later, a session shows what it showed and then its own messages. */
  ghost predicate AlwaysStable(db: Db, i: nat)
    requires Inv(db) && i < |db.sessions|
  {
    forall ops :: WithAncestors(Exec(db, ops), db.sessions[i].id) ==
      Ok(Shown(db, i) + Own(Exec(db, ops).messages, db.sessions[i].id))
  }

  lemma OpenCutUnstable(db: Db, i: nat)
    requires Inv(db) && i < |db.sessions| && !NoOpenCut(db, i)
    ensures !AlwaysStable(db, i)
  {
    var m := Message(seq(LongestId(db.messages) + 1, _ => 'x'), OpenParent(db, i), User, "", 0);
    LongerIsFresh(db.messages, m.id);
    OpenParentExists(db, i);
    var more, id := AppendMessage(db, m).0, db.sessions[i].id;
    assert [Append(m)] + [] == [Append(m)];
    ExecOne(db, Append(m), []);
    AppendKeeps(db, m);
    SameParent(db, more, i);
    WalkAlwaysSucceeds(more, i);
    OpenCutGrows(db, more, m, i);
    assert |Shown(more, i) + Own(more.messages, id)| > |Shown(db, i) + Own(more.messages, id)|;
    assert WithAncestors(Exec(db, [Append(m)]), id) != Ok(Shown(db, i) + Own(Exec(db, [Append(m)]).messages, id));
  }

  /**
   * The exact condition for what a session shows to be left alone by everything appended elsewhere, in any later
   * run: up to where the walk stops, no link branches from a message with an empty id.
   */
  lemma StableIffNoOpenCut(db: Db, i: nat)
    requires Inv(db) && i < |db.sessions|
    ensures AlwaysStable(db, i) <==> NoOpenCut(db, i)
  {
    if NoOpenCut(db, i) {
      forall ops ensures WithAncestors(Exec(db, ops), db.sessions[i].id) ==
          Ok(Shown(db, i) + Own(Exec(db, ops).messages, db.sessions[i].id))
      {
        RunKeeps(db, ops);
        StillShown(db, Exec(db, ops), i);
      }
    } else {
      OpenCutUnstable(db, i);
    }
  }

  /** A session shows its ancestors' prefixes and its own messages now and after every later run. */
  ghost predicate AlwaysHistory(db: Db, i: nat)
    requires Inv(db) && i < |db.sessions|
  {
    forall ops | Extends(db, Exec(db, ops)) && Inv(Exec(db, ops)) ::
      WithAncestors(Exec(db, ops), db.sessions[i].id) == Ok(History(Exec(db, ops), i))
  }

  lemma HistoryAfter(db: Db, more: Db, i: nat)
    requires Inv(db) && Inv(more) && Extends(db, more) && i < |db.sessions|
    ensures History(more, i) == Inherited(db, i) + Own(more.messages, db.sessions[i].id)
  {
    SameParent(db, more, i);
    InheritedStays(db, more, i);
  }

  /** Both conditions together are exactly what makes a session show its history for good. */
  lemma HistoryForGoodIff(db: Db, i: nat)
    requires Inv(db) && i < |db.sessions|
    ensures AlwaysHistory(db, i) <==> Faithful(db, i) && NoOpenCut(db, i)
  {
    ShownIsInheritedIff(db, i);
    if AlwaysHistory(db, i) {
      assert Exec(db, []) == db;
      MessagesAreHistoryIff(db, i);
      forall ops ensures WithAncestors(Exec(db, ops), db.sessions[i].id) ==
          Ok(Shown(db, i) + Own(Exec(db, ops).messages, db.sessions[i].id))
      {
        RunKeeps(db, ops);
        HistoryAfter(db, Exec(db, ops), i);
      }
      StableIffNoOpenCut(db, i);
    }
    if Faithful(db, i) && NoOpenCut(db, i) {
      forall ops | Extends(db, Exec(db, ops)) && Inv(Exec(db, ops))
        ensures WithAncestors(Exec(db, ops), db.sessions[i].id) == Ok(History(Exec(db, ops), i))
      {
        StillShown(db, Exec(db, ops), i);
        HistoryAfter(db, Exec(db, ops), i);
      }
    }
  }

  lemma OwnOfOne(m: Message, session: string)
    ensures Own([m], session) == if m.sessionId == session then [m] else []
  {
    assert [m][..0] == [];
  }

  lemma OwnOfTwo(m: Message, n: Message, session: string)
    ensures Own([m, n], session) ==
      (if m.sessionId == session then [m] else []) + (if n.sessionId == session then [n] else [])
  {
    OwnOfOne(m, session);
    assert [m, n][..1] == [m];
  }

  lemma ExecOne(db: Db, op: Op, rest: seq<Op>)
    ensures Exec(db, [op] + rest) == Exec(Apply(db, op), rest)
  {
    assert ([op] + rest)[1..] == rest;
  }

  /** Without an open cut a new message shows at the end of its own session's history, and in no other. */
  lemma AppendShowsInItsSessionOnly(db: Db, m: Message, i: nat)
    requires Inv(db) && i < |db.sessions| && NoOpenCut(db, i) && AppendMessage(db, m).0 != db
    ensures var id := db.sessions[i].id;
      && WithAncestors(db, id).Ok?
      && WithAncestors(AppendMessage(db, m).0, id) == Ok(WithAncestors(db, id).value + (if m.sessionId == id then [m] else []))
  {
    var more := AppendMessage(db, m).0;
    LaterRunsOnlyExtend(db, [Append(m)], i);
    assert [Append(m)] + [] == [Append(m)];
    ExecOne(db, Append(m), []);
    assert more.messages[|db.messages|..] == [m];
    OwnOfOne(m, db.sessions[i].id);
  }

  lemma {:induction false} ShownGrows(db: Db, more: Db, i: nat)
    requires Inv(db) && Inv(more) && Extends(db, more) && i < |db.sessions|
    ensures |Shown(more, i)| >= |Shown(db, i)|
    decreases i
  {
    var s := db.sessions[i];
    SameParent(db, more, i);
    if !Stops(s) {
      ShownGrows(db, more, Parent(db, i));
      BranchPointPresent(db, i);
      OwnGrows(db, more, s.parentSession.value);
      ThroughStays(Own(db.messages, s.parentSession.value),
                   Own(more.messages[|db.messages|..], s.parentSession.value), s.parentMessage.value);
    }
  }

  /** With an open cut, anywhere on the way up, every new message of the session it opens changes what is shown. */
  lemma EmptyBranchIdLeaks(db: Db, m: Message, i: nat)
    requires Inv(db) && i < |db.sessions| && AppendMessage(db, m).0 != db
    requires !NoOpenCut(db, i) && m.sessionId == OpenParent(db, i)
    ensures WithAncestors(AppendMessage(db, m).0, db.sessions[i].id) != WithAncestors(db, db.sessions[i].id)
  {
    var more := AppendMessage(db, m).0;
    AppendKeeps(db, m);
    WalkAlwaysSucceeds(db, i);
    SameParent(db, more, i);
    WalkAlwaysSucceeds(more, i);
    OpenCutGrows(db, more, m, i);
    OwnGrows(db, more, db.sessions[i].id);
  }

  /** A store that a caller can make where a branch shows more than its parent's prefix. */
  lemma UnfaithfulReachable()
    ensures var root := Session("r", None, None, None, 0);
      var first, second := Message("", "r", User, "a", 0), Message("m", "r", User, "b", 0);
      var branch := Session("b", None, Some("r"), Some(""), 0);
      var db := Exec(EMPTY, [Create(root), Append(first), Append(second), Create(branch)]);
      Inv(db) && db.sessions == [root, branch] && History(db, 1) == [first] &&
      WithAncestors(db, "b") == Ok([first, second])
  {
    var root := Session("r", None, None, None, 0);
    var first, second := Message("", "r", User, "a", 0), Message("m", "r", User, "b", 0);
    var branch := Session("b", None, Some("r"), Some(""), 0);
    RunOfFour(root, first, second, branch);
    ReachableInv([Create(root), Append(first), Append(second), Create(branch)]);
    RowsOfTwo(first, second);
    BranchOfRoot(Db([root, branch], [first, second]), 1, [first, second]);
  }

  lemma RowsOfTwo(first: Message, second: Message)
    requires first.id == "" && first.sessionId == "r" && second.sessionId == "r"
    ensures Own([first, second], "r") == [first, second] && Own([first, second], "b") == []
    ensures Through([first, second], "") == [first]
  {
    OwnOfTwo(first, second, "r");
    OwnOfTwo(first, second, "b");
    assert [first, second][..1] == [first];
  }

  lemma RunOfFour(root: Session, first: Message, second: Message, branch: Session)
    requires root.id == "r" && root.parentSession.None? && root.parentMessage.None?
    requires branch.id == "b" && branch.parentSession == Some("r") && branch.parentMessage == Some("")
    requires first.sessionId == "r" && second.sessionId == "r" && first.id == "" && second.id == "m"
    ensures Exec(EMPTY, [Create(root), Append(first), Append(second), Create(branch)]) ==
      Db([root, branch], [first, second])
  {
    var d1, d2, d3 := Db([root], []), Db([root], [first]), Db([root], [first, second]);
    var ops1, ops2, ops3 := [Append(first), Append(second), Create(branch)], [Append(second), Create(branch)], [Create(branch)];
    assert Apply(EMPTY, Create(root)) == d1 by {
      assert [] + [root] == [root];
    }
    assert Apply(d1, Append(first)) == d2 by {
      assert [] + [first] == [first] && [root][..0] == [];
    }
    assert Apply(d2, Append(second)) == d3 by {
      assert [first] + [second] == [first, second] && [first][..0] == [];
    }
    assert Apply(d3, Create(branch)) == Db([root, branch], [first, second]) by {
      assert d3.messages[0] == first && [root][..0] == [] && [root] + [branch] == [root, branch];
    }
    assert [Create(root)] + ops1 == [Create(root), Append(first), Append(second), Create(branch)];
    ExecOne(EMPTY, Create(root), ops1);
    assert [Append(first)] + ops2 == ops1;
    ExecOne(d1, Append(first), ops2);
    assert [Append(second)] + ops3 == ops2;
    ExecOne(d2, Append(second), ops3);
    assert [Create(branch)] + [] == ops3;
    ExecOne(d3, Create(branch), []);
  }

  /** What a branch of a root session from an empty-named message shows while it has no message of its own. */
  lemma BranchOfRoot(db: Db, i: nat, rows: seq<Message>)
    requires Inv(db) && i < |db.sessions| && !Stops(db.sessions[i])
    requires db.sessions[Parent(db, i)].parentSession.None? && db.sessions[i].parentMessage == Some("")
    requires rows == Own(db.messages, db.sessions[i].parentSession.value) && Own(db.messages, db.sessions[i].id) == []
    ensures History(db, i) == Through(rows, "") && WithAncestors(db, db.sessions[i].id) == Ok(rows)
  {
    assert Inherited(db, Parent(db, i)) == [] && Shown(db, Parent(db, i)) == [];
    WalkAlwaysSucceeds(db, i);
    assert Shown(db, i) + [] == rows;
  }
}
