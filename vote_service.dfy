/** The read side of the vote service (alterations/cqrs/msa/vote_service/src/graphql.js):
    the projects a student voted for, the votes cast for an entity's
    projects, and the students who voted for a project. A vote record holds
    one student's votes in one event. */
module VoteService {
  import opened Common
  import opened Lists
  import Store

  datatype Vote = Vote(pid: string, enid: string)
  datatype StudentVotes = StudentVotes(uid: string, evid: string, votes: seq<Vote>)
  /** One element of `votesOfEntity`'s result. */
  datatype Pair = Pair(uid: string, pid: string)

  function StudentKey(r: StudentVotes): (string, string) { (r.evid, r.uid) }

  /** `result.votes.map((v) => v.pid)` */
  function Pids(votes: seq<Vote>): (ps: seq<string>)
    ensures |ps| == |votes| && forall i :: 0 <= i < |votes| ==> ps[i] == votes[i].pid
  {
    seq(|votes|, i requires 0 <= i < |votes| => votes[i].pid)
  }

  function Enids(votes: seq<Vote>): (es: seq<string>)
    ensures |es| == |votes| && forall i :: 0 <= i < |votes| ==> es[i] == votes[i].enid
  {
    seq(|votes|, i requires 0 <= i < |votes| => votes[i].enid)
  }

  /** `votesOfStudent(uid, evid)`: the permission check, then the pids of the
      first record of that student in that event, in vote order, or null. */
  function VotesOfStudent(records: seq<StudentVotes>, uid: string, evid: string, permission: Outcome): (r: Result<Option<seq<string>>>)
    ensures permission.Fail? ==> r == Err(permission.message)
    ensures permission.Pass? ==> r.Ok?
    ensures r.Ok? && r.value.None? <==>
      permission.Pass? && forall i :: 0 <= i < |records| ==> !(records[i].evid == evid && records[i].uid == uid)
    ensures r.Ok? && r.value.Some? ==>
      exists i :: 0 <= i < |records| && records[i].evid == evid && records[i].uid == uid && r.value.value == Pids(records[i].votes)
  {
    if permission.Fail? then Err(permission.message)
    else match Store.FindBy(records, StudentKey, (evid, uid))
      case None => Ok(None)
      case Some(rec) => Ok(Some(Pids(rec.votes)))
  }

  // ---------------------------------------------------------------------
  // votes of an entity
  // ---------------------------------------------------------------------

  /** The pairs one record contributes: its votes for the entity, in order. */
  function RecordPairs(uid: string, votes: seq<Vote>, enid: string): seq<Pair>
  {
    if votes == [] then []
    else (if votes[0].enid == enid then [Pair(uid, votes[0].pid)] else []) + RecordPairs(uid, votes[1..], enid)
  }

  /** Reference definition of `votesOfEntity`: record by record, then vote by
      vote, the votes for the entity. */
  function EntityPairs(records: seq<StudentVotes>, enid: string): seq<Pair>
  {
    if records == [] then [] else RecordPairs(records[0].uid, records[0].votes, enid) + EntityPairs(records[1..], enid)
  }

  lemma {:induction false} RecordPairsAppend(uid: string, a: seq<Vote>, b: seq<Vote>, enid: string)
    ensures RecordPairs(uid, a + b, enid) == RecordPairs(uid, a, enid) + RecordPairs(uid, b, enid)
  {
    if a == [] {
      assert a + b == b;
    } else {
      var ab := a + b;
      assert ab[0] == a[0] && ab[1..] == a[1..] + b;
      RecordPairsAppend(uid, a[1..], b, enid);
      var h := if a[0].enid == enid then [Pair(uid, a[0].pid)] else [];
      var x, y := RecordPairs(uid, a[1..], enid), RecordPairs(uid, b, enid);
      assert RecordPairs(uid, ab, enid) == h + (x + y);
      assert RecordPairs(uid, a, enid) == h + x;
      assert h + (x + y) == (h + x) + y;
    }
  }

  lemma {:induction false} EntityPairsAppend(a: seq<StudentVotes>, b: seq<StudentVotes>, enid: string)
    ensures EntityPairs(a + b, enid) == EntityPairs(a, enid) + EntityPairs(b, enid)
  {
    if a == [] {
      assert a + b == b;
    } else {
      assert (a + b)[0] == a[0] && (a + b)[1..] == a[1..] + b;
      EntityPairsAppend(a[1..], b, enid);
    }
  }

  /** A record contributes one pair per vote for the entity, and only such
      pairs. */
  lemma {:induction false} RecordPairsMembers(uid: string, votes: seq<Vote>, enid: string, p: Pair)
    ensures |RecordPairs(uid, votes, enid)| == Count(Enids(votes), enid)
    ensures p in RecordPairs(uid, votes, enid) <==>
      p.uid == uid && exists j :: 0 <= j < |votes| && votes[j].enid == enid && votes[j].pid == p.pid
  {
    if votes != [] {
      RecordPairsMembers(uid, votes[1..], enid, p);
      assert Enids(votes) == [votes[0].enid] + Enids(votes[1..]);
      if p in RecordPairs(uid, votes[1..], enid) {
        var j :| 0 <= j < |votes[1..]| && votes[1..][j].enid == enid && votes[1..][j].pid == p.pid;
        assert votes[j + 1] == votes[1..][j];
      }
      if p.uid == uid && exists j :: 0 <= j < |votes| && votes[j].enid == enid && votes[j].pid == p.pid {
        var j :| 0 <= j < |votes| && votes[j].enid == enid && votes[j].pid == p.pid;
        if j > 0 {
          assert votes[1..][j - 1] == votes[j];
        }
      }
    }
  }

  /** Sum over the records of their votes for the entity. */
  function MatchingVotes(records: seq<StudentVotes>, enid: string): nat
  {
    if records == [] then 0 else Count(Enids(records[0].votes), enid) + MatchingVotes(records[1..], enid)
  }

  /** `votesOfEntity` lists exactly the votes for the entity, each once, with
      the voting student: as many pairs as there are such votes, and no vote
      for another entity. */
  lemma {:induction false} EntityPairsMembers(records: seq<StudentVotes>, enid: string, p: Pair)
    ensures |EntityPairs(records, enid)| == MatchingVotes(records, enid)
    ensures p in EntityPairs(records, enid) <==>
      exists i, j :: 0 <= i < |records| && 0 <= j < |records[i].votes| && records[i].uid == p.uid
                     && records[i].votes[j].enid == enid && records[i].votes[j].pid == p.pid
  {
    if records != [] {
      EntityPairsMembers(records[1..], enid, p);
      RecordPairsMembers(records[0].uid, records[0].votes, enid, p);
      var rest := records[1..];
      if p in EntityPairs(rest, enid) {
        var i, j :| 0 <= i < |rest| && 0 <= j < |rest[i].votes| && rest[i].uid == p.uid
                    && rest[i].votes[j].enid == enid && rest[i].votes[j].pid == p.pid;
        assert records[i + 1] == rest[i];
      }
      if exists i, j :: 0 <= i < |records| && 0 <= j < |records[i].votes| && records[i].uid == p.uid
                        && records[i].votes[j].enid == enid && records[i].votes[j].pid == p.pid {
        var i, j :| 0 <= i < |records| && 0 <= j < |records[i].votes| && records[i].uid == p.uid
                    && records[i].votes[j].enid == enid && records[i].votes[j].pid == p.pid;
        if i > 0 {
          assert rest[i - 1] == records[i];
        }
      }
    }
  }

  predicate HasVoteFor(r: StudentVotes, enid: string)
  {
    exists j :: 0 <= j < |r.votes| && r.votes[j].enid == enid
  }

  function InEvent(evid: string): StudentVotes -> bool
  {
    (r: StudentVotes) => r.evid == evid
  }

  /** `Vote.find({ evid, 'votes.enid': enid })` */
  function InEventForEntity(evid: string, enid: string): StudentVotes -> bool
  {
    (r: StudentVotes) => r.evid == evid && HasVoteFor(r, enid)
  }

  lemma {:induction false} RecordPairsNone(uid: string, votes: seq<Vote>, enid: string)
    requires forall j :: 0 <= j < |votes| ==> votes[j].enid != enid
    ensures RecordPairs(uid, votes, enid) == []
  {
    if votes != [] {
      assert forall j :: 0 <= j < |votes[1..]| ==> votes[1..][j] == votes[j + 1];
      RecordPairsNone(uid, votes[1..], enid);
    }
  }

  /** The `'votes.enid'` condition of the query changes nothing: the loop
      skips every vote for another entity anyway. */
  lemma {:induction false} PrefilterIrrelevant(records: seq<StudentVotes>, evid: string, enid: string)
    ensures EntityPairs(Store.Where(records, InEventForEntity(evid, enid)), enid)
         == EntityPairs(Store.Where(records, InEvent(evid)), enid)
  {
    if records != [] {
      var r, tail := records[0], records[1..];
      assert records == [r] + tail;
      PrefilterIrrelevant(tail, evid, enid);
      Store.WhereCons(r, tail, InEventForEntity(evid, enid));
      Store.WhereCons(r, tail, InEvent(evid));
      if r.evid == evid {
        EntityPairsCons(r, Store.Where(tail, InEvent(evid)), enid);
        if HasVoteFor(r, enid) {
          EntityPairsCons(r, Store.Where(tail, InEventForEntity(evid, enid)), enid);
        } else {
          RecordPairsNone(r.uid, r.votes, enid);
        }
      }
    }
  }

  lemma EntityPairsCons(r: StudentVotes, rest: seq<StudentVotes>, enid: string)
    ensures EntityPairs([r] + rest, enid) == RecordPairs(r.uid, r.votes, enid) + EntityPairs(rest, enid)
  {
    assert ([r] + rest)[1..] == rest;
  }

  /** One more vote of a record: a pair is added iff it is for the entity. */
  lemma RecordPairsStep(uid: string, votes: seq<Vote>, j: nat, enid: string)
    requires j < |votes|
    ensures RecordPairs(uid, votes[..j + 1], enid)
         == RecordPairs(uid, votes[..j], enid) + (if votes[j].enid == enid then [Pair(uid, votes[j].pid)] else [])
  {
    assert votes[..j + 1] == votes[..j] + [votes[j]];
    RecordPairsAppend(uid, votes[..j], [votes[j]], enid);
    assert [votes[j]][1..] == [];
  }

  /** One more record: its pairs follow the earlier records' pairs. */
  lemma EntityPairsStep(records: seq<StudentVotes>, i: nat, enid: string)
    requires i < |records|
    ensures EntityPairs(records[..i + 1], enid) == EntityPairs(records[..i], enid) + RecordPairs(records[i].uid, records[i].votes, enid)
  {
    assert records[..i + 1] == records[..i] + [records[i]];
    EntityPairsAppend(records[..i], [records[i]], enid);
    assert [records[i]][1..] == [];
  }

  /** `votesOfEntity(enid, evid)`: the permission check, the query, then the
      nested loops that push one pair per vote for the entity. */
  method VotesOfEntity(records: seq<StudentVotes>, enid: string, evid: string, permission: Outcome) returns (r: Result<seq<Pair>>)
    ensures permission.Fail? ==> r == Err(permission.message)
    ensures permission.Pass? ==> r == Ok(EntityPairs(Store.Where(records, InEvent(evid)), enid))
  {
    if permission.Fail? {
      return Err(permission.message);
    }
    var votes := Store.Where(records, InEventForEntity(evid, enid));
    var res: seq<Pair> := [];
    for i := 0 to |votes|
      invariant res == EntityPairs(votes[..i], enid)
    {
      var studentVote := votes[i];
      ghost var before := res;
      for j := 0 to |studentVote.votes|
        invariant res == before + RecordPairs(studentVote.uid, studentVote.votes[..j], enid)
      {
        var vote := studentVote.votes[j];
        RecordPairsStep(studentVote.uid, studentVote.votes, j, enid);
        if enid == vote.enid {
          res := res + [Pair(studentVote.uid, vote.pid)];
        }
      }
      assert studentVote.votes[..|studentVote.votes|] == studentVote.votes;
      EntityPairsStep(votes, i, enid);
    }
    assert votes[..|votes|] == votes;
    PrefilterIrrelevant(records, evid, enid);
    r := Ok(res);
  }

  // ---------------------------------------------------------------------
  // votes of a project
  // ---------------------------------------------------------------------

  /** The query `votesOfProject` builds besides `evid`: admins ask for a vote
      for the project, representatives for a single vote for the project and
      their own entity, other callers for nothing more. */
  datatype ProjectQuery = ForProject(pid: string) | ForProjectOfEntity(pid: string, enid: Option<string>) | WholeEvent

  function ProjectQueryFor(caller: Claims, pid: string): (q: ProjectQuery)
    ensures caller.IsAdmin() <==> q == ForProject(pid)
    ensures caller.IsRepresentative() <==> q == ForProjectOfEntity(pid, caller.enid)
    ensures q.WholeEvent? <==> !caller.IsAdmin() && !caller.IsRepresentative()
  {
    if caller.kind == Some("a") then ForProject(pid)
    else if caller.kind == Some("r") then ForProjectOfEntity(pid, caller.enid)
    else WholeEvent
  }

  /** Whether a record of the event satisfies the extra condition; with
      `$elemMatch` both fields must hold for one and the same vote. */
  predicate Selects(q: ProjectQuery, r: StudentVotes)
    ensures q.WholeEvent? ==> Selects(q, r)
    ensures Selects(q, r) && !q.WholeEvent? ==> exists j :: 0 <= j < |r.votes| && r.votes[j].pid == q.pid
    ensures r.votes == [] ==> (Selects(q, r) <==> q.WholeEvent?)
  {
    match q
    case ForProject(pid) => exists j :: 0 <= j < |r.votes| && r.votes[j].pid == pid
    case ForProjectOfEntity(pid, enid) => exists j :: 0 <= j < |r.votes| && r.votes[j].pid == pid && Some(r.votes[j].enid) == enid
    case WholeEvent => true
  }

  function Uids(records: seq<StudentVotes>): (us: seq<string>)
    ensures |us| == |records| && forall i :: 0 <= i < |records| ==> us[i] == records[i].uid
  {
    seq(|records|, i requires 0 <= i < |records| => records[i].uid)
  }

  /** `votesOfProject(pid, evid)`: the permission check, then the uids of the
      matching records of the event, in natural order. */
  function VotesOfProject(records: seq<StudentVotes>, caller: Claims, pid: string, evid: string, permission: Outcome): (r: Result<seq<string>>)
    ensures permission.Fail? ==> r == Err(permission.message)
    ensures permission.Pass? ==> r.Ok?
    ensures r.Ok? ==>
      forall i :: 0 <= i < |records| && records[i].evid == evid && Selects(ProjectQueryFor(caller, pid), records[i]) ==> records[i].uid in r.value
    ensures r.Ok? ==> forall k :: 0 <= k < |r.value| ==>
      exists i :: 0 <= i < |records| && records[i].uid == r.value[k] && records[i].evid == evid
                  && Selects(ProjectQueryFor(caller, pid), records[i])
  {
    if permission.Fail? then Err(permission.message)
    else
      var q := ProjectQueryFor(caller, pid);
      var found := Store.Where(records, (v: StudentVotes) => v.evid == evid && Selects(q, v));
      assert forall k :: 0 <= k < |found| ==> found[k] in records && found[k].evid == evid && Selects(q, found[k]);
      forall i | 0 <= i < |records| && records[i].evid == evid && Selects(q, records[i])
        ensures records[i].uid in Uids(found)
      {
        var k :| 0 <= k < |found| && found[k] == records[i];
        assert Uids(found)[k] == records[i].uid;
      }
      Ok(Uids(found))
  }

  /** A representative sees no voter an admin would not see. */
  lemma RepresentativeSeesLess(records: seq<StudentVotes>, admin: Claims, rep: Claims, pid: string, evid: string)
    requires admin.IsAdmin() && rep.IsRepresentative()
    ensures var a := VotesOfProject(records, admin, pid, evid, Pass).value;
      var rv := VotesOfProject(records, rep, pid, evid, Pass).value;
      forall k :: 0 <= k < |rv| ==> rv[k] in a
  {
    var a := VotesOfProject(records, admin, pid, evid, Pass).value;
    var rv := VotesOfProject(records, rep, pid, evid, Pass).value;
    forall k | 0 <= k < |rv|
      ensures rv[k] in a
    {
      var i :| 0 <= i < |records| && records[i].uid == rv[k] && records[i].evid == evid
               && Selects(ForProjectOfEntity(pid, rep.enid), records[i]);
      var j :| 0 <= j < |records[i].votes| && records[i].votes[j].pid == pid && Some(records[i].votes[j].enid) == rep.enid;
      assert Selects(ForProject(pid), records[i]);
    }
  }

  /** An admin sees no voter that a caller of another type would not see. */
  lemma AdminSeesLessThanOthers(records: seq<StudentVotes>, admin: Claims, other: Claims, pid: string, evid: string)
    requires admin.IsAdmin() && !other.IsAdmin() && !other.IsRepresentative()
    ensures var a := VotesOfProject(records, admin, pid, evid, Pass).value;
      var o := VotesOfProject(records, other, pid, evid, Pass).value;
      forall k :: 0 <= k < |a| ==> a[k] in o
  {
    var a := VotesOfProject(records, admin, pid, evid, Pass).value;
    forall k | 0 <= k < |a|
      ensures a[k] in VotesOfProject(records, other, pid, evid, Pass).value
    {
      var i :| 0 <= i < |records| && records[i].uid == a[k] && records[i].evid == evid
               && Selects(ForProject(pid), records[i]);
      assert Selects(ProjectQueryFor(other, pid), records[i]);
    }
  }
}
