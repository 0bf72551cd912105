/** Board members: adding, changing and removing them never takes the last admin off a board. */
module Members {

  import opened Sequences

  datatype Roles = Roles(admin: bool, editor: bool, commenter: bool, viewer: bool)

  datatype Member = Member(boardID: string, userID: string, roles: Roles, synthetic: bool)

  /** Board and user. */
  type Key = (string, string)

  /** What a member operation returns: nothing (no such board or member), a member, or the error
      that the board would lose its last admin. */
  datatype Answer = NoMember | Got(member: Member) | IsLastAdmin

  datatype Op =
    | Add(member: Member)
    | Update(member: Member)
    | Delete(boardID: string, userID: string)

  /** What the store holds: the boards, the stored memberships, and the memberships that follow from
      a channel or a team, which are never admin ones. */
  datatype Rows = Rows(boards: set<string>, explicit: map<Key, Roles>, implicit: map<Key, Roles>)

  ghost predicate Sound(s: Rows) {
    forall k :: k in s.implicit ==> !s.implicit[k].admin
  }

  function Lookup(s: Rows, k: Key): Option<Member> {
    if k in s.explicit then Some(Member(k.0, k.1, s.explicit[k], false))
    else if k in s.implicit then Some(Member(k.0, k.1, s.implicit[k], true))
    else None
  }

  ghost predicate IsAdmin(s: Rows, boardID: string, userID: string) {
    (boardID, userID) in s.explicit && s.explicit[(boardID, userID)].admin
  }

  ghost predicate HasAdmin(s: Rows, boardID: string) {
    exists u :: IsAdmin(s, boardID, u)
  }

  ghost predicate OnlyAdmin(s: Rows, boardID: string, userID: string) {
    IsAdmin(s, boardID, userID) && forall u :: IsAdmin(s, boardID, u) ==> u == userID
  }

  /** The store after an operation. */
  ghost function Apply(s: Rows, op: Op): Rows {
    match op
    case Add(m) =>
      if m.boardID in s.boards && (m.boardID, m.userID) !in s.explicit then Stored(s, m) else s
    case Update(m) =>
      if m.boardID in s.boards && Lookup(s, (m.boardID, m.userID)).Some?
         && (m.roles.admin || !OnlyAdmin(s, m.boardID, m.userID)) then Stored(s, m) else s
    case Delete(b, u) =>
      if b in s.boards && !OnlyAdmin(s, b, u) then s.(explicit := s.explicit - {(b, u)}) else s
  }

  function Stored(s: Rows, m: Member): Rows {
    s.(explicit := s.explicit[(m.boardID, m.userID) := m.roles])
  }

  ghost function Run(s: Rows, ops: seq<Op>): Rows
    decreases |ops|
  {
    if ops == [] then s else Run(Apply(s, ops[0]), ops[1..])
  }

  /** Nothing but this one stored membership has changed. */
  ghost predicate ElseKept(before: Rows, after: Rows, key: Key) {
    && after.boards == before.boards && after.implicit == before.implicit
    && after.explicit - {key} == before.explicit - {key}
  }

  class MemberStore {
    var rows: Rows

    constructor (rows: Rows)
      ensures this.rows == rows
    {
      this.rows := rows;
    }

    /** The members of a board, in no particular order. */
    method MembersForBoard(boardID: string) returns (members: seq<Member>)
      ensures forall m :: m in members <==> m.boardID == boardID && Lookup(rows, (boardID, m.userID)) == Some(m)
    {
      members := [];
      var todo := rows.explicit.Keys + rows.implicit.Keys;
      while todo != {}
        invariant todo <= rows.explicit.Keys + rows.implicit.Keys
        invariant forall m :: m in members <==>
                    m.boardID == boardID && (boardID, m.userID) !in todo && Lookup(rows, (boardID, m.userID)) == Some(m)
        decreases todo
      {
        var k :| k in todo;
        todo := todo - {k};
        if k.0 == boardID {
          members := members + [Lookup(rows, k).value];
        }
      }
    }

    method CheckLastAdmin(userID: string, boardID: string) returns (last: bool)
      requires Sound(rows)
      ensures last <==> forall u :: IsAdmin(rows, boardID, u) ==> u == userID
    {
      var members := MembersForBoard(boardID);
      for i := 0 to |members|
        invariant forall j :: 0 <= j < i ==> !(members[j].roles.admin && members[j].userID != userID)
      {
        if members[i].roles.admin && members[i].userID != userID {
          assert members[i] in members;
          assert IsAdmin(rows, boardID, members[i].userID);
          return false;
        }
      }
      forall u | IsAdmin(rows, boardID, u) ensures u == userID {
        assert Lookup(rows, (boardID, u)).value in members;
      }
      return true;
    }

    /** Adds a member.  A member who is already stored stays as stored; only the answer, not the
        store, reflects admin rights that come from managing the team. */
    method AddMemberToBoard(member: Member, managesTeam: bool) returns (r: Answer)
      modifies this
      ensures rows == Apply(old(rows), Add(member))
      ensures ElseKept(old(rows), rows, (member.boardID, member.userID))
      ensures member.boardID in rows.boards && (member.boardID, member.userID) !in old(rows.explicit) ==>
                && (member.boardID, member.userID) in rows.explicit
                && rows.explicit[(member.boardID, member.userID)] == member.roles
                && r == Got(member.(roles := member.roles.(admin := member.roles.admin || managesTeam)))
      ensures member.boardID !in rows.boards || (member.boardID, member.userID) in old(rows.explicit) ==>
                rows == old(rows)
      ensures r.NoMember? <==> member.boardID !in rows.boards
      ensures (member.boardID, member.userID) in old(rows.explicit) && r.Got? ==>
                Some(r.member) == Lookup(old(rows), (member.boardID, member.userID))
      ensures !r.IsLastAdmin?
    {
      if member.boardID !in rows.boards {
        return NoMember;
      }
      var existing := Lookup(rows, (member.boardID, member.userID));
      if existing.Some? && !existing.value.synthetic {
        return Got(existing.value);
      }
      rows := Stored(rows, member);
      var newMember := member;
      if !newMember.roles.admin && managesTeam {
        newMember := newMember.(roles := newMember.roles.(admin := true));
      }
      return Got(newMember);
    }

    /** Changes a member's roles, unless that takes the last admin off the board. */
    method UpdateBoardMember(member: Member) returns (r: Answer)
      requires Sound(rows)
      modifies this
      ensures rows == Apply(old(rows), Update(member))
      ensures r.IsLastAdmin? <==> member.boardID in old(rows.boards) && !member.roles.admin
                                  && OnlyAdmin(old(rows), member.boardID, member.userID)
      ensures r.Got? ==>
                && r.member == member && ElseKept(old(rows), rows, (member.boardID, member.userID))
                && (member.boardID, member.userID) in rows.explicit
                && rows.explicit[(member.boardID, member.userID)] == member.roles
      ensures !r.Got? ==> rows == old(rows)
      ensures r.NoMember? <==>
                member.boardID !in old(rows.boards) || Lookup(old(rows), (member.boardID, member.userID)).None?
    {
      if member.boardID !in rows.boards {
        return NoMember;
      }
      var oldMember := Lookup(rows, (member.boardID, member.userID));
      if oldMember.None? {
        return NoMember;
      }
      if oldMember.value.roles.admin && !member.roles.admin {
        var last := CheckLastAdmin(member.userID, member.boardID);
        if last {
          return IsLastAdmin;
        }
      }
      rows := Stored(rows, member);
      return Got(member);
    }

    /** Removes a member, unless that takes the last admin off the board. */
    method DeleteBoardMember(boardID: string, userID: string) returns (r: Answer)
      requires Sound(rows)
      modifies this
      ensures rows == Apply(old(rows), Delete(boardID, userID))
      ensures r.IsLastAdmin? <==> boardID in old(rows.boards) && OnlyAdmin(old(rows), boardID, userID)
      ensures !r.IsLastAdmin? && boardID in old(rows.boards) ==> (boardID, userID) !in rows.explicit
      ensures ElseKept(old(rows), rows, (boardID, userID))
      ensures r.IsLastAdmin? || boardID !in old(rows.boards) ==> rows == old(rows)
    {
      if boardID !in rows.boards {
        return NoMember;
      }
      var oldMember := Lookup(rows, (boardID, userID));
      if oldMember.None? {
        assert rows.explicit - {(boardID, userID)} == rows.explicit;
        return NoMember;
      }
      if oldMember.value.roles.admin {
        var last := CheckLastAdmin(userID, boardID);
        if last {
          return IsLastAdmin;
        }
      }
      rows := rows.(explicit := rows.explicit - {(boardID, userID)});
      return NoMember;
    }
  }

  lemma ApplyKeepsAdmin(s: Rows, op: Op, boardID: string)
    requires HasAdmin(s, boardID)
    ensures HasAdmin(Apply(s, op), boardID)
  {
    var t := Apply(s, op);
    if t != s {
      var key := if op.Delete? then (op.boardID, op.userID) else (op.member.boardID, op.member.userID);
      var a :| IsAdmin(s, boardID, a);
      if (boardID, a) != key {
        assert IsAdmin(t, boardID, a);
      } else if op.Update? && op.member.roles.admin {
        assert IsAdmin(t, boardID, a);
      } else {
        var u :| IsAdmin(s, boardID, u) && u != a;
        assert IsAdmin(t, boardID, u);
      }
    }
  }

  /** In every run of member operations, a board that has an admin always keeps at least one. */
  lemma {:induction false} RunKeepsAdmin(s: Rows, ops: seq<Op>, boardID: string)
    requires HasAdmin(s, boardID)
    ensures HasAdmin(Run(s, ops), boardID)
    decreases |ops|
  {
    if ops == [] {
    } else {
      ApplyKeepsAdmin(s, ops[0], boardID);
      RunKeepsAdmin(Apply(s, ops[0]), ops[1..], boardID);
    }
  }

  /** Adding alone never changes the roles of a stored member. */
  lemma {:induction false} AddsKeepMembers(s: Rows, ops: seq<Op>, k: Key)
    requires k in s.explicit && forall op :: op in ops ==> op.Add?
    ensures k in Run(s, ops).explicit
    ensures Run(s, ops).explicit[k] == s.explicit[k]
    decreases |ops|
  {
    if ops == [] {
    } else {
      assert ops[0] in ops;
      AddsKeepMembers(Apply(s, ops[0]), ops[1..], k);
    }
  }

  lemma {:induction false} RunAppend(s: Rows, a: seq<Op>, b: seq<Op>)
    ensures Run(s, a + b) == Run(Run(s, a), b)
    decreases |a|
  {
    if a == [] {
      assert a + b == b;
    } else {
      assert (a + b)[1..] == a[1..] + b;
      RunAppend(Apply(s, a[0]), a[1..], b);
    }
  }

  lemma {:induction false} AddsOutside(s: Rows, ops: seq<Op>, k: Key)
    requires k !in s.explicit
    requires forall op :: op in ops ==> op.Add? && (op.member.boardID, op.member.userID) != k
    ensures k !in Run(s, ops).explicit
    ensures Run(s, ops).boards == s.boards
    decreases |ops|
  {
    if ops == [] {
    } else {
      assert ops[0] in ops;
      AddsOutside(Apply(s, ops[0]), ops[1..], k);
    }
  }

  /** Of several additions for one new member of an existing board, the first decides the roles. */
  lemma FirstAddDecides(s: Rows, ops: seq<Op>, i: nat, k: Key)
    requires i < |ops| && k !in s.explicit && k.0 in s.boards
    requires forall op :: op in ops ==> op.Add?
    requires (ops[i].member.boardID, ops[i].member.userID) == k
    requires forall j :: 0 <= j < i ==> (ops[j].member.boardID, ops[j].member.userID) != k
    ensures k in Run(s, ops).explicit
    ensures Run(s, ops).explicit[k] == ops[i].member.roles
  {
    var before := Run(s, ops[..i]);
    AddsOutside(s, ops[..i], k);
    assert ops == ops[..i] + ops[i..];
    RunAppend(s, ops[..i], ops[i..]);
    assert ops[i..][0] == ops[i] && ops[i] in ops;
    AddsKeepMembers(Apply(before, ops[i]), ops[i..][1..], k);
  }
}
