/** The user service's resolvers (msa/user_service/src/graphql.js): the
    random password handed to a new representative, the GraphQL type of a
    user record, the claims an API token carries, and the permission rules
    and store updates of the representative, student and delete mutations.
    The user collection is a sequence of documents; `bcrypt`, the id checker
    and the mail transport enter as parameters. */
module UserService {
  import opened Common
  import opened Lists
  import Store

  // ---------------------------------------------------------------------
  // users
  // ---------------------------------------------------------------------

  /** The discriminator of a user document: a plain `User`, a `Student` or a
      `Representative`, with the fields each adds. */
  datatype Role =
    | PlainUser
    | StudentRole(studentnumber: string, websites: seq<string>, studies: seq<string>, share: seq<string>)
    | RepresentativeRole(enid: string, repAdmin: bool)

  /** A user document; an absent `admin` flag reads as false. */
  datatype User = User(uid: string, firstname: Option<string>, lastname: Option<string>, email: string,
                       phone: Option<string>, admin: bool, password: string, role: Role)

  function UidOf(u: User): string { u.uid }
  function EmailOf(u: User): string { u.email }
  /** The key `Student.findById(uid)` matches on: the id, among the students. */
  function StudentKey(u: User): (string, bool) { (u.uid, u.role.StudentRole?) }
  /** The key `Representative.findById(uid)` matches on. */
  function RepresentativeKey(u: User): (string, bool) { (u.uid, u.role.RepresentativeRole?) }

  /** Document ids are unique in the collection. */
  ghost predicate UniqueIds(users: seq<User>)
  {
    forall i, j :: 0 <= i < j < |users| ==> users[i].uid != users[j].uid
  }

  /** `Representative.findById(uid, { enid: 1 })`, projected to its enid. */
  function RepresentativeEnid(users: seq<User>, uid: string): (r: Option<string>)
    ensures r.None? <==> forall i :: 0 <= i < |users| ==> !(users[i].uid == uid && users[i].role.RepresentativeRole?)
    ensures r.Some? ==> exists i :: 0 <= i < |users| && users[i].uid == uid && users[i].role.RepresentativeRole? && users[i].role.enid == r.value
  {
    match Store.IndexOf(users, RepresentativeKey, (uid, true))
    case None => None
    case Some(i) => Some(users[i].role.enid)
  }

  // ---------------------------------------------------------------------
  // random passwords
  // ---------------------------------------------------------------------

  const Alphabet: string := "0123456789ABCDEFGHIJKLMNOPQRSTUVWXYZabcdefghijklmnopqrstuvwxyz!@#%&*()"
  const DefaultPasswordLength: nat := 12

  lemma AlphabetSize()
    ensures |Alphabet| == 70
  {
  }

  /** `randomPassword(length)`: one alphabet character per draw of
      `randomInt(0, alphabet.length)`; `draws` are those draws in order. */
  method RandomPassword(length: nat, draws: seq<nat>) returns (password: string)
    requires |draws| == length
    requires forall i :: 0 <= i < |draws| ==> draws[i] < |Alphabet|
    ensures |password| == length
    ensures forall i :: 0 <= i < length ==> password[i] == Alphabet[draws[i]]
    ensures forall i :: 0 <= i < |password| ==> password[i] in Alphabet
  {
    password := "";
    for i := 0 to length
      invariant |password| == i
      invariant forall k :: 0 <= k < i ==> password[k] == Alphabet[draws[k]]
    {
      password := password + [Alphabet[draws[i]]];
    }
  }

  // ---------------------------------------------------------------------
  // types and tokens
  // ---------------------------------------------------------------------

  /** The resolver of the `User` interface: students and representatives by
      their discriminator, every other document is an `Admin`. */
  function ResolveType(u: User): (name: string)
    ensures name == "Student" || name == "Representative" || name == "Admin"
    ensures name == "Student" <==> u.role.StudentRole?
    ensures name == "Representative" <==> u.role.RepresentativeRole?
  {
    match u.role
    case StudentRole(_, _, _, _) => "Student"
    case RepresentativeRole(_, _) => "Representative"
    case PlainUser => "Admin"
  }

  /** The payload `apiToken` signs for a user: the `admin` flag wins over the
      discriminator; a representative adds its enid, and `repAdmin: true`
      only when it is a representative admin. */
  function ClaimsOf(u: User): (c: Claims)
    ensures c.uid == u.uid
    ensures c.IsAdmin() <==> u.admin
    ensures c.IsStudent() <==> !u.admin && u.role.StudentRole?
    ensures c.IsRepresentative() <==> !u.admin && u.role.RepresentativeRole?
    ensures c.kind.None? <==> !u.admin && u.role.PlainUser?
    ensures c.enid.Some? <==> c.IsRepresentative()
    ensures c.IsRepresentative() ==> c.enid == Some(u.role.enid)
    ensures c.IsRepAdmin() <==> c.IsRepresentative() && u.role.repAdmin
    ensures c.repAdmin != Some(false)
  {
    if u.admin then Claims(u.uid, Some("a"), None, None)
    else match u.role
      case StudentRole(_, _, _, _) => Claims(u.uid, Some("s"), None, None)
      case RepresentativeRole(enid, repAdmin) => Claims(u.uid, Some("r"), Some(enid), if repAdmin then Some(true) else None)
      case PlainUser => Claims(u.uid, None, None, None)
  }

  /** A token's type agrees with the GraphQL type of its user, except that
      the admin flag makes any user an admin, and a non-admin plain user's
      token carries no type at all. */
  lemma ClaimsAgreeWithResolveType(u: User)
    ensures !u.admin && ResolveType(u) == "Student" ==> ClaimsOf(u).kind == Some("s")
    ensures !u.admin && ResolveType(u) == "Representative" ==> ClaimsOf(u).kind == Some("r")
    ensures ResolveType(u) == "Admin" ==> (ClaimsOf(u).IsAdmin() <==> u.admin)
    ensures ResolveType(u) == "Admin" && !u.admin ==> ClaimsOf(u).kind.None?
  {
  }

  const NoUserMessage := "No user with that email found."
  const IncorrectPasswordMessage := "Incorrect password"

  /** `apiToken(email, password)`: the first user with that email, checked
      with `compare` (bcrypt's verdict for the plain password against the
      stored hash); the result is the payload handed to `jwt.sign`. */
  function ApiToken(users: seq<User>, email: string, password: string, compare: (string, string) -> bool): (r: Result<Claims>)
    ensures r == Err(NoUserMessage) <==> forall i :: 0 <= i < |users| ==> users[i].email != email
    ensures r.Err? ==> r.message == NoUserMessage || r.message == IncorrectPasswordMessage
    ensures r.Ok? <==>
      exists i :: 0 <= i < |users| && users[i].email == email && compare(password, users[i].password)
                  && (forall j :: 0 <= j < i ==> users[j].email != email)
    ensures r.Ok? ==> exists i :: 0 <= i < |users| && users[i].email == email && r.value == ClaimsOf(users[i])
  {
    match Store.IndexOf(users, EmailOf, email)
    case None => Err(NoUserMessage)
    case Some(i) =>
      if compare(password, users[i].password) then Ok(ClaimsOf(users[i])) else Err(IncorrectPasswordMessage)
  }

  /** Two users sharing an email: only the first one's password opens it. */
  lemma {:induction false} ApiTokenFirstMatch(users: seq<User>, u: User, email: string, password: string, compare: (string, string) -> bool)
    requires u.email == email
    ensures ApiToken([u] + users, email, password, compare) ==
      if compare(password, u.password) then Ok(ClaimsOf(u)) else Err(IncorrectPasswordMessage)
  {
    assert ([u] + users)[0] == u;
  }

  // ---------------------------------------------------------------------
  // permission rules
  // ---------------------------------------------------------------------

  const CreateDenied := "UNAUTHORIZED create user accounts for this entity"
  const UpdateRepresentativeDenied := "UNAUTHORIZED update representative"
  const EnidDenied := "UNAUTHORIZED update enid of representative"
  const PasswordDenied := "UNAUTHORIZED update other peoples passwords"
  const UpdateStudentDenied := "UNAUTHORIZED update student"
  const ShareDenied := "UNAUTHORIZED update share information"
  const DeleteUserDenied := "UNAUTHORIZED delete user"
  const DeleteEntitiesDenied := "UNAUTHORIZED delete entities"
  const InvalidUidMessage := "Invalid uid supplied"
  /** What reading `.enid` of a null lookup result throws. */
  const NullEnidMessage := "Cannot read properties of null (reading 'enid')"

  /** `user.representative.create`: an admin, or a representative admin of
      the entity the new account belongs to. */
  function CreateRepresentativeCheck(caller: Claims, enid: string): (r: Outcome)
    ensures r.Pass? <==> caller.IsAdmin() || (caller.IsRepresentative() && caller.IsRepAdmin() && caller.enid == Some(enid))
    ensures r.Fail? ==> r.message == CreateDenied
  {
    if caller.IsAdmin() || (caller.kind == Some("r") && caller.repAdmin == Some(true) && caller.enid == Some(enid)) then Pass
    else Fail(CreateDenied)
  }

  /** The first guard of `user.representative.update` as written: the
      target's enid is read off `Representative.findById(uid)` without a null
      check, so a representative admin naming a uid that is not a
      representative gets a TypeError. `target` is that lookup's enid. */
  function UpdateRepresentativeGuardAsWritten(caller: Claims, uid: string, target: Option<string>): (r: Outcome)
    ensures r == Fail(NullEnidMessage) <==> !caller.IsAdmin() && caller.uid != uid && caller.IsRepAdmin() && target.None?
    ensures r.Pass? <==> caller.IsAdmin() || caller.uid == uid || (caller.IsRepAdmin() && target.Some? && caller.enid == target)
  {
    if caller.IsAdmin() || caller.uid == uid then Pass
    else if !caller.IsRepAdmin() then Fail(UpdateRepresentativeDenied)
    else match target
      case None => Fail(NullEnidMessage)
      case Some(enid) => if caller.enid == Some(enid) then Pass else Fail(UpdateRepresentativeDenied)
  }

  /** The same guard with the missing target treated like `checkEnid` of
      `user.delete` treats it: as a denial. */
  function UpdateRepresentativeGuard(caller: Claims, uid: string, target: Option<string>): (r: Outcome)
    ensures r.Pass? <==> caller.IsAdmin() || caller.uid == uid || (caller.IsRepAdmin() && target.Some? && caller.enid == target)
    ensures r.Fail? ==> r.message == UpdateRepresentativeDenied
  {
    if caller.IsAdmin() || caller.uid == uid || (caller.IsRepAdmin() && target.Some? && caller.enid == target) then Pass
    else Fail(UpdateRepresentativeDenied)
  }

  /** The two guards agree except on a missing target, where only the message
      differs. */
  lemma UpdateGuardsDiffer(caller: Claims, uid: string, target: Option<string>)
    ensures UpdateRepresentativeGuardAsWritten(caller, uid, target).Pass? == UpdateRepresentativeGuard(caller, uid, target).Pass?
    ensures UpdateRepresentativeGuardAsWritten(caller, uid, target) != UpdateRepresentativeGuard(caller, uid, target) <==>
      !caller.IsAdmin() && caller.uid != uid && caller.IsRepAdmin() && target.None?
  {
  }

  /** A representative admin updating a student's uid: as written the
      request fails with a TypeError instead of the permission error. */
  lemma UpdateStudentAsRepresentativeAdmin()
    ensures UpdateRepresentativeGuardAsWritten(Claims("rep", Some("r"), Some("e1"), Some(true)), "student", None) == Fail(NullEnidMessage)
    ensures UpdateRepresentativeGuard(Claims("rep", Some("r"), Some("e1"), Some(true)), "student", None) == Fail(UpdateRepresentativeDenied)
  {
  }

  /** The arguments of `user.representative.update` other than `uid`; `None`
      is an argument not supplied, which `$set` leaves alone. */
  datatype RepresentativePatch = RepresentativePatch(
    enid: Option<string>, firstname: Option<string>, lastname: Option<string>, email: Option<string>,
    phone: Option<string>, repAdmin: Option<bool>, password: Option<string>)

  /** All three guards of `user.representative.update`, in their order. */
  function UpdateRepresentativeCheck(caller: Claims, uid: string, target: Option<string>, patch: RepresentativePatch): (r: Outcome)
    ensures r.Pass? <==>
      && (caller.IsAdmin() || caller.uid == uid || (caller.IsRepAdmin() && target.Some? && caller.enid == target))
      && (caller.IsAdmin() || !Truthy(patch.enid))
      && (caller.uid == uid || !Truthy(patch.password))
    ensures UpdateRepresentativeGuard(caller, uid, target).Fail? ==> r == Fail(UpdateRepresentativeDenied)
    ensures r.Fail? ==> r.message in {UpdateRepresentativeDenied, EnidDenied, PasswordDenied}
    ensures Truthy(patch.password) && caller.uid != uid ==> r.Fail?
  {
    match UpdateRepresentativeGuard(caller, uid, target)
    case Fail(m) => Fail(m)
    case Pass =>
      if Truthy(patch.enid) && !caller.IsAdmin() then Fail(EnidDenied)
      else if Truthy(patch.password) && caller.uid != uid then Fail(PasswordDenied)
      else Pass
  }

  /** The representative after `$set: args`: every supplied field replaced,
      a truthy password by its hash (an empty one is stored as it is). */
  function PatchRepresentative(u: User, p: RepresentativePatch, hash: string -> string): (v: User)
    requires u.role.RepresentativeRole?
    ensures v.uid == u.uid && v.admin == u.admin && v.role.RepresentativeRole?
    ensures v.role.enid == Override(u.role.enid, p.enid) && v.role.repAdmin == Override(u.role.repAdmin, p.repAdmin)
    ensures v.firstname == OverrideOpt(u.firstname, p.firstname)
    ensures v.lastname == OverrideOpt(u.lastname, p.lastname)
    ensures v.phone == OverrideOpt(u.phone, p.phone)
    ensures v.email == Override(u.email, p.email)
    ensures v.password == (if Truthy(p.password) then hash(p.password.value) else Override(u.password, p.password))
    ensures p == RepresentativePatch(None, None, None, None, None, None, None) ==> v == u
  {
    User(u.uid,
         OverrideOpt(u.firstname, p.firstname),
         OverrideOpt(u.lastname, p.lastname),
         Override(u.email, p.email),
         OverrideOpt(u.phone, p.phone),
         u.admin,
         if Truthy(p.password) then hash(p.password.value) else Override(u.password, p.password),
         RepresentativeRole(Override(u.role.enid, p.enid), Override(u.role.repAdmin, p.repAdmin)))
  }

  /** Nothing in the guards covers `repAdmin`: a representative may make
      itself a representative admin. */
  lemma SelfMayGrantRepAdmin(caller: Claims, u: User, hash: string -> string)
    requires caller.IsRepresentative() && !caller.IsRepAdmin() && caller.uid == u.uid && u.role.RepresentativeRole?
    ensures var p := RepresentativePatch(None, None, None, None, None, Some(true), None);
      UpdateRepresentativeCheck(caller, u.uid, Some(u.role.enid), p).Pass? && PatchRepresentative(u, p, hash).role.repAdmin
  {
  }

  /** `user.student.update`, `uploadCV` and `shareInfo`: an admin or the
      student itself. */
  predicate MayActForStudent(caller: Claims, uid: string)
    ensures MayActForStudent(caller, uid) ==> caller.IsAdmin() || caller.uid == uid
    ensures caller.IsRepresentative() || caller.kind.None? ==> !MayActForStudent(caller, uid)
    ensures caller.IsAdmin() ==> MayActForStudent(caller, uid)
  {
    caller.IsAdmin() || (caller.IsStudent() && caller.uid == uid)
  }

  /** `user.delete`: an admin, the user itself, or a representative admin of
      the entity the target represents (`checkEnid`, false for a target that
      is not a representative). */
  function DeleteUserCheck(caller: Claims, uid: string, target: Option<string>): (r: Outcome)
    ensures r.Pass? <==>
      caller.IsAdmin() || caller.uid == uid || (caller.IsRepresentative() && caller.IsRepAdmin() && target.Some? && caller.enid == target)
    ensures r.Fail? ==> r.message == DeleteUserDenied
    ensures target.None? ==> (r.Pass? <==> caller.IsAdmin() || caller.uid == uid)
  {
    var checkEnid := match target
      case None => false
      case Some(enid) => caller.enid == Some(enid);
    if caller.IsAdmin() || caller.uid == uid || (caller.kind == Some("r") && caller.repAdmin == Some(true) && checkEnid) then Pass
    else Fail(DeleteUserDenied)
  }

  /** The arguments of `user.student.update` other than `uid`. */
  datatype StudentPatch = StudentPatch(firstname: Option<string>, lastname: Option<string>, email: Option<string>,
                                       phone: Option<string>, websites: Option<seq<string>>)

  /** The student after `$set: args`. */
  function PatchStudent(u: User, p: StudentPatch): (v: User)
    requires u.role.StudentRole?
    ensures v.uid == u.uid && v.admin == u.admin && v.password == u.password && v.role.StudentRole?
    ensures v.role.studentnumber == u.role.studentnumber && v.role.studies == u.role.studies && v.role.share == u.role.share
    ensures v.role.websites == Override(u.role.websites, p.websites)
    ensures v.firstname == OverrideOpt(u.firstname, p.firstname)
    ensures v.lastname == OverrideOpt(u.lastname, p.lastname)
    ensures v.phone == OverrideOpt(u.phone, p.phone)
    ensures v.email == Override(u.email, p.email)
  {
    User(u.uid,
         OverrideOpt(u.firstname, p.firstname),
         OverrideOpt(u.lastname, p.lastname),
         Override(u.email, p.email),
         OverrideOpt(u.phone, p.phone),
         u.admin, u.password,
         StudentRole(u.role.studentnumber, Override(u.role.websites, p.websites), u.role.studies, u.role.share))
  }

  // ---------------------------------------------------------------------
  // share lists
  // ---------------------------------------------------------------------

  /** `shareInfo`'s update of a share list: `$push` or `$pull` of `enid`. */
  function Reshare(share: seq<string>, enid: string, on: bool): (r: seq<string>)
    ensures on ==> |r| == |share| + 1 && r[|share|] == enid
    ensures !on ==> enid !in r
  {
    if on then share + [enid] else Pull(share, enid)
  }

  /** Sharing appends one more occurrence of the entity; unsharing removes
      every occurrence; no other entry moves in or out. */
  lemma ReshareCounts(share: seq<string>, enid: string, on: bool, other: string)
    ensures Count(Reshare(share, enid, on), enid) == if on then Count(share, enid) + 1 else 0
    ensures other != enid ==> Count(Reshare(share, enid, on), other) == Count(share, other)
    ensures on ==> Reshare(share, enid, on)[..|share|] == share
  {
    if on {
      CountAppend(share, [enid], enid);
      CountAppend(share, [enid], other);
      assert Count([enid], other) == (if other == enid then 1 else 0);
    } else {
      CountZero(Pull(share, enid), enid);
      if other != enid {
        PullKeepsOthers(share, enid, other);
      }
    }
  }

  /** Sharing and then unsharing leaves the list as unsharing alone would. */
  lemma ShareThenUnshare(share: seq<string>, enid: string)
    ensures Reshare(Reshare(share, enid, true), enid, false) == Reshare(share, enid, false)
  {
    PullAfterPush(share, enid);
  }

  /** The student after `shareInfo`. */
  function WithShare(u: User, enid: string, on: bool): (v: User)
    requires u.role.StudentRole?
    ensures v.role.StudentRole? && v.role.share == Reshare(u.role.share, enid, on)
    ensures v == u.(role := u.role.(share := v.role.share))
  {
    u.(role := u.role.(share := Reshare(u.role.share, enid, on)))
  }

  // ---------------------------------------------------------------------
  // deletion
  // ---------------------------------------------------------------------

  function IsRepresentativeOf(u: User, enid: string): bool
  {
    u.role.RepresentativeRole? && u.role.enid == enid
  }

  /** `Representative.deleteMany({ enid })`: every representative of the
      entity goes, every other user stays, in order. */
  function WithoutRepresentativesOf(users: seq<User>, enid: string): (r: seq<User>)
    ensures forall i :: 0 <= i < |r| ==> !IsRepresentativeOf(r[i], enid) && r[i] in users
    ensures forall i :: 0 <= i < |users| && !IsRepresentativeOf(users[i], enid) ==> users[i] in r
  {
    Store.Where(users, (u: User) => !IsRepresentativeOf(u, enid))
  }

  /** Filtering keeps document ids unique. */
  lemma {:induction false} WhereUnique(users: seq<User>, keep: User -> bool)
    requires UniqueIds(users)
    ensures UniqueIds(Store.Where(users, keep))
  {
    if users != [] {
      var u, tail := users[0], users[1..];
      assert users == [u] + tail;
      UniqueSplit(u, tail);
      WhereUnique(tail, keep);
      Store.WhereCons(u, tail, keep);
      if keep(u) {
        UniqueCons(u, Store.Where(tail, keep));
      }
    }
  }

  lemma UniqueSplit(u: User, tail: seq<User>)
    requires UniqueIds([u] + tail)
    ensures UniqueIds(tail) && forall x :: x in tail ==> x.uid != u.uid
  {
    forall i, j | 0 <= i < j < |tail|
      ensures tail[i].uid != tail[j].uid
    {
      assert ([u] + tail)[i + 1] == tail[i] && ([u] + tail)[j + 1] == tail[j];
    }
    forall x | x in tail
      ensures x.uid != u.uid
    {
      var k :| 0 <= k < |tail| && tail[k] == x;
      assert ([u] + tail)[0] == u && ([u] + tail)[k + 1] == x;
    }
  }

  lemma UniqueCons(u: User, rest: seq<User>)
    requires UniqueIds(rest) && forall j :: 0 <= j < |rest| ==> rest[j].uid != u.uid
    ensures UniqueIds([u] + rest)
  {
    forall i, j | 0 <= i < j < |rest| + 1
      ensures ([u] + rest)[i].uid != ([u] + rest)[j].uid
    {
      assert ([u] + rest)[j] == rest[j - 1];
      if i > 0 {
        assert ([u] + rest)[i] == rest[i - 1];
      }
    }
  }

  /** The line of a new representative's mail that carries the password. */
  datatype Mail = Mail(to: string, subject: string, text: string)

  /** `${value}` in a template: an argument not supplied prints as undefined. */
  function Interpolate(s: Option<string>): string
  {
    if s.Some? then s.value else "undefined"
  }

  /** The arguments of `user.representative.create`. */
  datatype NewRepresentative = NewRepresentative(enid: string, firstname: Option<string>, lastname: Option<string>,
                                                 email: string, phone: Option<string>, repAdmin: Option<bool>)

  /** The mail sent to a new representative; its last line is the password. */
  function AccountMail(args: NewRepresentative, password: string): (m: Mail)
    ensures m.to == args.email
    ensures |m.text| >= |password| + 1 && m.text[|m.text| - |password| - 1..] == password + "\n"
  {
    MailEndingWith(args.email, MailHead(args), password)
  }

  /** A mail whose text is `head` followed by the password line. */
  function MailEndingWith(to: string, head: string, password: string): (m: Mail)
    ensures m.to == to
    ensures |m.text| >= |password| + 1 && m.text[|m.text| - |password| - 1..] == password + "\n"
  {
    var tail := password + "\n";
    SuffixAfter(head, tail, head + tail);
    Mail(to, "ThesisFair representative account created", head + tail)
  }

  /** The fixed lines between the account kind and the email address. */
  const AccountCreatedLines := "representative account has been created.\nYou can log in at https://TODO.nl/login\n\nYour credentials are:\nEmail: "

  /** The mail text up to the password. */
  function MailHead(args: NewRepresentative): string
  {
    "\nDear " + Interpolate(args.firstname) + " " + Interpolate(args.lastname) + ",\n\nYour UvA ThesisFair "
    + (if args.repAdmin == Some(true) then "admin " else "")
    + AccountCreatedLines
    + args.email + "\nPassword: "
  }

  lemma SuffixAfter(head: string, tail: string, text: string)
    requires text == head + tail
    ensures |text| >= |tail| && text[|text| - |tail|..] == tail
  {
  }

  /** The document `Representative.create(args)` stores: `repAdmin`
      defaults to false and the password is the hash of the mailed one. */
  function NewRepresentativeUser(uid: string, args: NewRepresentative, hashed: string): (u: User)
    ensures u.uid == uid && u.email == args.email && !u.admin && u.password == hashed
    ensures u.role == RepresentativeRole(args.enid, args.repAdmin == Some(true))
    ensures ClaimsOf(u) == Claims(uid, Some("r"), Some(args.enid), if args.repAdmin == Some(true) then Some(true) else None)
  {
    User(uid, args.firstname, args.lastname, args.email, args.phone, false, hashed,
         RepresentativeRole(args.enid, Override(false, args.repAdmin)))
  }

  // ---------------------------------------------------------------------
  // the store and the mutations
  // ---------------------------------------------------------------------

  /** The user collection and the `./data` directory of uploaded CVs, keyed
      by file path. */
  class UserDb {
    var users: seq<User>
    var files: map<string, string>

    ghost predicate Valid()
      reads this
    {
      UniqueIds(users)
    }

    constructor (users: seq<User>)
      requires UniqueIds(users)
      ensures Valid() && this.users == users && files == map[]
    {
      this.users := users;
      files := map[];
    }

    /** `user.representative.create`: after the check, a 12-character
        password is drawn, mailed in plain text and stored hashed. `newUid`
        is the id the database assigns. */
    method CreateRepresentative(caller: Claims, args: NewRepresentative, draws: seq<nat>, hash: string -> string, newUid: string)
      returns (r: Result<User>, mail: Option<Mail>)
      requires Valid()
      requires |draws| == DefaultPasswordLength
      requires forall i :: 0 <= i < |draws| ==> draws[i] < |Alphabet|
      requires forall i :: 0 <= i < |users| ==> users[i].uid != newUid
      modifies this
      ensures Valid() && files == old(files)
      ensures CreateRepresentativeCheck(caller, args.enid).Fail? ==> r == Err(CreateDenied) && mail.None? && users == old(users)
      ensures CreateRepresentativeCheck(caller, args.enid).Pass? ==>
        && mail.Some? && r.Ok?
        && (exists password: string ::
              && |password| == DefaultPasswordLength
              && (forall i :: 0 <= i < |password| ==> password[i] == Alphabet[draws[i]])
              && mail.value == AccountMail(args, password)
              && r.value == NewRepresentativeUser(newUid, args, hash(password)))
        && users == old(users) + [r.value]
    {
      var check := CreateRepresentativeCheck(caller, args.enid);
      if check.Fail? {
        return Err(check.message), None;
      }
      var password := RandomPassword(DefaultPasswordLength, draws);
      var hashed := hash(password);
      mail := Some(AccountMail(args, password));
      var u := NewRepresentativeUser(newUid, args, hashed);
      AppendKeepsUnique(users, u);
      users := users + [u];
      r := Ok(u);
      assert |password| == DefaultPasswordLength
        && (forall i :: 0 <= i < |password| ==> password[i] == Alphabet[draws[i]])
        && mail.value == AccountMail(args, password)
        && r.value == NewRepresentativeUser(newUid, args, hash(password));
    }

    /** `user.representative.update`: the guards, then `$set` on the
        representative with that id; `null` when there is none. The guard is
        the corrected one. */
    method UpdateRepresentative(caller: Claims, uid: string, patch: RepresentativePatch, hash: string -> string)
      returns (r: Result<Option<User>>)
      requires Valid()
      modifies this
      ensures Valid() && files == old(files)
      ensures var check := UpdateRepresentativeCheck(caller, uid, RepresentativeEnid(old(users), uid), patch);
        && (check.Fail? ==> r == Err(check.message) && users == old(users))
        && (check.Pass? && Store.IndexOf(old(users), RepresentativeKey, (uid, true)).None? ==> r == Ok(None) && users == old(users))
        && (check.Pass? && Store.IndexOf(old(users), RepresentativeKey, (uid, true)).Some? ==>
              var i := Store.IndexOf(old(users), RepresentativeKey, (uid, true)).value;
              r == Ok(Some(PatchRepresentative(old(users)[i], patch, hash))) && users == old(users)[i := r.value.value])
    {
      var check := UpdateRepresentativeCheck(caller, uid, RepresentativeEnid(users, uid), patch);
      if check.Fail? {
        return Err(check.message);
      }
      var found := Store.IndexOf(users, RepresentativeKey, (uid, true));
      if found.None? {
        return Ok(None);
      }
      var i := found.value;
      var v := PatchRepresentative(users[i], patch, hash);
      ReplaceKeepsUnique(users, i, v);
      users := users[i := v];
      r := Ok(Some(v));
    }

    /** `user.student.update`. */
    method UpdateStudent(caller: Claims, uid: string, patch: StudentPatch) returns (r: Result<Option<User>>)
      requires Valid()
      modifies this
      ensures Valid() && files == old(files)
      ensures !MayActForStudent(caller, uid) ==> r == Err(UpdateStudentDenied) && users == old(users)
      ensures MayActForStudent(caller, uid) && Store.IndexOf(old(users), StudentKey, (uid, true)).None? ==>
        r == Ok(None) && users == old(users)
      ensures MayActForStudent(caller, uid) && Store.IndexOf(old(users), StudentKey, (uid, true)).Some? ==>
        var i := Store.IndexOf(old(users), StudentKey, (uid, true)).value;
        r == Ok(Some(PatchStudent(old(users)[i], patch))) && users == old(users)[i := r.value.value]
    {
      if !MayActForStudent(caller, uid) {
        return Err(UpdateStudentDenied);
      }
      var found := Store.IndexOf(users, StudentKey, (uid, true));
      if found.None? {
        return Ok(None);
      }
      var i := found.value;
      var v := PatchStudent(users[i], patch);
      ReplaceKeepsUnique(users, i, v);
      users := users[i := v];
      r := Ok(Some(v));
    }

    /** `user.student.uploadCV`: the id check comes before the permission
        check; the file is written whether or not such a student exists. */
    method UploadCV(validUid: bool, caller: Claims, uid: string, file: string) returns (r: Result<bool>)
      modifies this
      ensures users == old(users)
      ensures !validUid ==> r == Err(InvalidUidMessage) && files == old(files)
      ensures validUid && !MayActForStudent(caller, uid) ==> r == Err(UpdateStudentDenied) && files == old(files)
      ensures validUid && MayActForStudent(caller, uid) ==> r == Ok(true) && files == old(files)["./data/" + uid := file]
    {
      if !validUid {
        return Err(InvalidUidMessage);
      }
      if !MayActForStudent(caller, uid) {
        return Err(UpdateStudentDenied);
      }
      files := files["./data/" + uid := file];
      r := Ok(true);
    }

    /** `user.student.shareInfo`: `$push` or `$pull` of the entity on the
        student's share list. */
    method ShareInfo(caller: Claims, uid: string, enid: string, share: bool) returns (r: Result<Option<User>>)
      requires Valid()
      modifies this
      ensures Valid() && files == old(files)
      ensures !MayActForStudent(caller, uid) ==> r == Err(ShareDenied) && users == old(users)
      ensures MayActForStudent(caller, uid) && Store.IndexOf(old(users), StudentKey, (uid, true)).None? ==>
        r == Ok(None) && users == old(users)
      ensures MayActForStudent(caller, uid) && Store.IndexOf(old(users), StudentKey, (uid, true)).Some? ==>
        var i := Store.IndexOf(old(users), StudentKey, (uid, true)).value;
        r == Ok(Some(WithShare(old(users)[i], enid, share))) && users == old(users)[i := r.value.value]
    {
      if !MayActForStudent(caller, uid) {
        return Err(ShareDenied);
      }
      var found := Store.IndexOf(users, StudentKey, (uid, true));
      if found.None? {
        return Ok(None);
      }
      var i := found.value;
      var v := WithShare(users[i], enid, share);
      ReplaceKeepsUnique(users, i, v);
      users := users[i := v];
      r := Ok(Some(v));
    }

    /** `user.delete`: after the check, `findByIdAndDelete` removes the user
        with that id, whatever its type, and returns it. */
    method Delete(caller: Claims, uid: string) returns (r: Result<Option<User>>)
      requires Valid()
      modifies this
      ensures Valid() && files == old(files)
      ensures var check := DeleteUserCheck(caller, uid, RepresentativeEnid(old(users), uid));
        && (check.Fail? ==> r == Err(DeleteUserDenied) && users == old(users))
        && (check.Pass? ==> r.Ok?)
        && (check.Pass? && r.value.None? ==> users == old(users) && forall i :: 0 <= i < |users| ==> users[i].uid != uid)
        && (check.Pass? && r.value.Some? ==>
              && r.value.value in old(users) && r.value.value.uid == uid
              && |users| == |old(users)| - 1
              && (forall i :: 0 <= i < |users| ==> users[i].uid != uid && users[i] in old(users))
              && (forall i :: 0 <= i < |old(users)| && old(users)[i].uid != uid ==> old(users)[i] in users))
    {
      var check := DeleteUserCheck(caller, uid, RepresentativeEnid(users, uid));
      if check.Fail? {
        return Err(DeleteUserDenied);
      }
      var found := Store.IndexOf(users, UidOf, uid);
      if found.None? {
        return Ok(None);
      }
      var i := found.value;
      var gone := users[i];
      var before := users;
      RemoveKeepsUnique(users, i);
      users := Store.RemoveAt(users, i);
      forall j | 0 <= j < |users|
        ensures users[j].uid != uid && users[j] in before
      {
        if j < i {
          assert users[j] == before[j];
        } else {
          assert users[j] == before[j + 1];
        }
      }
      forall j | 0 <= j < |before| && before[j].uid != uid
        ensures before[j] in users
      {
        if j < i {
          assert users[j] == before[j];
        } else {
          assert j != i;
          assert users[j - 1] == before[j];
        }
      }
      r := Ok(Some(gone));
    }

    /** `user.deleteOfEntity`: admins only; removes every representative of
        the entity. */
    method DeleteOfEntity(caller: Claims, enid: string) returns (r: Result<bool>)
      requires Valid()
      modifies this
      ensures Valid() && files == old(files)
      ensures !caller.IsAdmin() ==> r == Err(DeleteEntitiesDenied) && users == old(users)
      ensures caller.IsAdmin() ==> r == Ok(true) && users == WithoutRepresentativesOf(old(users), enid)
    {
      if !caller.IsAdmin() {
        return Err(DeleteEntitiesDenied);
      }
      WhereUnique(users, (u: User) => !IsRepresentativeOf(u, enid));
      users := WithoutRepresentativesOf(users, enid);
      r := Ok(true);
    }
  }

  /** Replacing a document by one with the same id keeps ids unique. */
  lemma ReplaceKeepsUnique(users: seq<User>, i: nat, v: User)
    requires UniqueIds(users) && i < |users| && v.uid == users[i].uid
    ensures UniqueIds(users[i := v])
  {
    var r := users[i := v];
    forall a, b | 0 <= a < b < |r|
      ensures r[a].uid != r[b].uid
    {
      assert r[a].uid == users[a].uid && r[b].uid == users[b].uid;
    }
  }

  /** Adding a document with a fresh id keeps ids unique. */
  lemma AppendKeepsUnique(users: seq<User>, u: User)
    requires UniqueIds(users) && forall i :: 0 <= i < |users| ==> users[i].uid != u.uid
    ensures UniqueIds(users + [u])
  {
    var r := users + [u];
    forall a, b | 0 <= a < b < |r|
      ensures r[a].uid != r[b].uid
    {
      assert r[a] == users[a];
      if b < |users| {
        assert r[b] == users[b];
      }
    }
  }

  /** Removing a document keeps ids unique, and its id is then gone. */
  lemma RemoveKeepsUnique(users: seq<User>, i: nat)
    requires UniqueIds(users) && i < |users|
    ensures UniqueIds(Store.RemoveAt(users, i))
    ensures forall j :: 0 <= j < |users| - 1 ==> Store.RemoveAt(users, i)[j].uid != users[i].uid
  {
    var r := Store.RemoveAt(users, i);
    forall a, b | 0 <= a < b < |r|
      ensures r[a].uid != r[b].uid
    {
      var a' := if a < i then a else a + 1;
      var b' := if b < i then b else b + 1;
      assert r[a] == users[a'] && r[b] == users[b'];
    }
    forall j | 0 <= j < |r|
      ensures r[j].uid != users[i].uid
    {
      var j' := if j < i then j else j + 1;
      assert r[j] == users[j'];
    }
  }
}
