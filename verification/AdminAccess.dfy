/**
 * Portal administrators, their session families and sessions: what each guarded batch does to the
 * tables, for any arguments its caller had read earlier, and what every run of batches keeps.
 *
 * Keys, unique indexes and checks are those of the schema migrations; identities are verified.
 */
module AdminTables {
  import opened Wrappers

  const SESSION_TTL_SECONDS := 28800

  datatype Identity = Identity(issuer: string, subject: string)

  datatype Member = Member(email: string, identity: Option<Identity>, active: bool, revision: nat, addedBy: string, createdAt: int)
  datatype Family = Family(memberId: string, revokedAt: Option<int>)
  datatype Session = Session(familyId: string, csrfHash: string, identity: Identity, createdAt: int, expiresAt: int)

  /** The entity tag of a member: what its record shows. */
  datatype Etag = Etag(memberId: string, email: string, bound: bool, addedBy: string, createdAt: int)

  function TagOf(id: string, m: Member): Etag {
    Etag(id, m.email, m.identity.Some?, m.addedBy, m.createdAt)
  }

  datatype Operation = AddMember | RemoveMember

  /** The fingerprint of a request: what it is taken over. */
  datatype Fingerprint = OfAdd(email: string) | OfRemove(memberId: string, expected: Etag)

  datatype ReceiptKey = ReceiptKey(actor: string, operation: Operation, key: string)

  datatype Tables = Tables(
    members: map<string, Member>,
    bootstrap: Option<string>,
    families: map<string, Family>,
    sessions: map<string, Session>,
    receipts: map<ReceiptKey, Fingerprint>)

  /** What a login found before its batch. */
  datatype Plan = Existing(memberId: string) | Invited(memberId: string, revision: nat) | Bootstrap(memberId: string)

  datatype Context = Context(memberId: string, identity: Identity, sessionHash: Option<string>)

  datatype Login = Login(identity: Identity, email: string, confirmedAt: int, familyId: string, sessionHash: string, csrfHash: string)

  predicate ActiveBound(m: Member) {
    m.active && m.identity.Some?
  }

  predicate EmailTaken(members: map<string, Member>, email: string) {
    exists id :: id in members && members[id].active && members[id].email == email
  }

  predicate IdentityTaken(members: map<string, Member>, identity: Identity) {
    exists id :: id in members && members[id].active && members[id].identity == Some(identity)
  }

  predicate AnotherBound(members: map<string, Member>, id: string) {
    exists other :: other in members && other != id && ActiveBound(members[other])
  }

  // ---------------------------------------------------------------- statements

  /** The membership part of a login; nothing if its guard fails or an index refuses it. */
  function Admit(t: Tables, plan: Plan, l: Login, now: int): Option<Tables> {
    match plan
    case Existing(_) => Some(t)
    case Invited(id, revision) =>
      if id in t.members && t.members[id].email == l.email && t.members[id].active && t.members[id].identity.None?
         && t.members[id].revision == revision && t.members[id].createdAt <= l.confirmedAt && !IdentityTaken(t.members, l.identity)
      then Some(t.(members := t.members[id := t.members[id].(identity := Some(l.identity), revision := revision + 1)]))
      else None
    case Bootstrap(id) =>
      if t.bootstrap.None? && t.members == map[]
      then Some(t.(members := map[id := Member(l.email, Some(l.identity), true, 0, "bootstrap", now)], bootstrap := Some(id)))
      else None
  }

  /** Revoke the open families of a member and delete the sessions of all its families. */
  function CloseFamilies(t: Tables, memberId: string, now: int): Tables {
    t.(families := map f | f in t.families ::
         if t.families[f].memberId == memberId && t.families[f].revokedAt.None? then t.families[f].(revokedAt := Some(now)) else t.families[f],
       sessions := map h | h in t.sessions && !(t.sessions[h].familyId in t.families && t.families[t.sessions[h].familyId].memberId == memberId) ::
         t.sessions[h])
  }

  function OpenSession(t: Tables, memberId: string, l: Login, now: int): Tables {
    t.(families := t.families[l.familyId := Family(memberId, None)],
       sessions := t.sessions[l.sessionHash := Session(l.familyId, l.csrfHash, l.identity, now, now + SESSION_TTL_SECONDS)])
  }

  /** The login batch: all of it or none. */
  function LoginBatch(t: Tables, plan: Plan, l: Login, now: int): Option<Tables> {
    var admitted := Admit(t, plan, l, now);
    if admitted.None? then None
    else
      var t1 := admitted.value;
      if !(plan.memberId in t1.members && t1.members[plan.memberId].active && t1.members[plan.memberId].identity == Some(l.identity)) then None
      else
        var t2 := CloseFamilies(t1, plan.memberId, now);
        if l.familyId in t2.families || l.sessionHash in t2.sessions then None
        else Some(OpenSession(t2, plan.memberId, l, now))
  }

  function RevokeBatch(t: Tables, sessionHash: string, memberId: string, now: int): Option<Tables> {
    if sessionHash in t.sessions && now < t.sessions[sessionHash].expiresAt
       && memberId in t.members && t.members[memberId].active
       && t.sessions[sessionHash].familyId in t.families
       && t.families[t.sessions[sessionHash].familyId] == Family(memberId, None)
    then
      var f := t.sessions[sessionHash].familyId;
      Some(t.(families := t.families[f := Family(memberId, Some(now))], sessions := t.sessions - {sessionHash}))
    else None
  }

  /** The acting member is active and bound as it says and, in a browser, still holds an open unexpired session. */
  predicate Authority(t: Tables, c: Context, now: int) {
    && c.memberId in t.members && t.members[c.memberId].active && t.members[c.memberId].identity == Some(c.identity)
    && (c.sessionHash.Some? ==>
          && c.sessionHash.value in t.sessions && now < t.sessions[c.sessionHash.value].expiresAt
          && t.sessions[c.sessionHash.value].familyId in t.families
          && t.families[t.sessions[c.sessionHash.value].familyId] == Family(c.memberId, None))
  }

  function AddBatch(t: Tables, c: Context, key: string, id: string, email: string, now: int): Option<Tables> {
    var k := ReceiptKey(c.memberId, AddMember, key);
    if Authority(t, c, now) && k !in t.receipts && id !in t.members && !EmailTaken(t.members, email)
    then Some(t.(receipts := t.receipts[k := OfAdd(email)],
                 members := t.members[id := Member(email, None, true, 0, c.memberId, now)]))
    else None
  }

  function RemoveBatch(t: Tables, c: Context, key: string, expected: Etag, id: string, revision: nat, now: int): Option<Tables> {
    var k := ReceiptKey(c.memberId, RemoveMember, key);
    if Authority(t, c, now) && k !in t.receipts
       && id in t.members && id != c.memberId && t.members[id].active && t.members[id].revision == revision
       && (t.members[id].identity.None? || AnotherBound(t.members, id))
    then
      var t1 := t.(receipts := t.receipts[k := OfRemove(id, expected)],
                   members := t.members[id := t.members[id].(active := false, revision := revision + 1)]);
      Some(CloseFamilies(t1, id, now))
    else None
  }

  // ---------------------------------------------------------------- runs of batches

  /** A batch with whatever arguments its caller computed from earlier reads. */
  datatype Action =
    | CompleteLogin(plan: Plan, login: Login)
    | RevokeSession(sessionHash: string, memberId: string)
    | Add(context: Context, key: string, memberId: string, email: string)
    | Remove(context: Context, key: string, expected: Etag, memberId: string, revision: nat)

  const Init := Tables(map[], None, map[], map[], map[])

  function Attempt(t: Tables, a: Action, now: int): Option<Tables> {
    match a
    case CompleteLogin(plan, l) => LoginBatch(t, plan, l, now)
    case RevokeSession(h, m) => RevokeBatch(t, h, m, now)
    case Add(c, key, id, email) => AddBatch(t, c, key, id, email, now)
    case Remove(c, key, expected, id, revision) => RemoveBatch(t, c, key, expected, id, revision, now)
  }

  function Step(t: Tables, a: Action, now: int): Tables {
    var r := Attempt(t, a, now);
    if r.Some? then r.value else t
  }

  function Run(t: Tables, actions: seq<(Action, int)>): Tables {
    if actions == [] then t
    else Step(Run(t, actions[..|actions| - 1]), actions[|actions| - 1].0, actions[|actions| - 1].1)
  }

  ghost predicate MembersSound(t: Tables) {
    && (t.members == map[] <==> t.bootstrap.None?)
    && (t.bootstrap.Some? ==> exists id :: id in t.members && ActiveBound(t.members[id]))
    && (forall i, j :: i in t.members && j in t.members && t.members[i].active && t.members[j].active && t.members[i].email == t.members[j].email ==> i == j)
    && (forall i, j :: i in t.members && j in t.members && ActiveBound(t.members[i]) && ActiveBound(t.members[j]) && t.members[i].identity == t.members[j].identity ==> i == j)
  }

  /** A stored session belongs to an open family of an active member bound to the session's identity. */
  ghost predicate SessionSound(t: Tables, s: Session) {
    && s.familyId in t.families && t.families[s.familyId].revokedAt.None?
    && var m := t.families[s.familyId].memberId;
       m in t.members && t.members[m].active && t.members[m].identity == Some(s.identity)
  }

  ghost predicate SessionsSound(t: Tables) {
    forall h :: h in t.sessions ==> SessionSound(t, t.sessions[h])
  }

  ghost predicate OneSessionPerFamily(t: Tables) {
    forall h, h' :: h in t.sessions && h' in t.sessions && t.sessions[h].familyId == t.sessions[h'].familyId ==> h == h'
  }

  /** The open family of a member. */
  ghost predicate OpenFor(t: Tables, f: string, memberId: string) {
    f in t.families && t.families[f] == Family(memberId, None)
  }

  ghost predicate OneOpenFamily(t: Tables) {
    forall f, f', m :: OpenFor(t, f, m) && OpenFor(t, f', m) ==> f == f'
  }

  /** Only active members have an open family. */
  ghost predicate OpenForActive(t: Tables) {
    forall f, m :: OpenFor(t, f, m) ==> m in t.members && ActiveBound(t.members[m])
  }

  ghost predicate Inv(t: Tables) {
    MembersSound(t) && AccessSound(t)
  }

  /** Bootstrap and receipts are final; a removed member stays removed. */
  ghost predicate Grows(t: Tables, t': Tables) {
    && (t.bootstrap.Some? ==> t'.bootstrap == t.bootstrap)
    && (forall id :: id in t.members ==> id in t'.members && (!t.members[id].active ==> t'.members[id] == t.members[id])
                                         && (t.members[id].identity.Some? ==> t'.members[id].identity == t.members[id].identity))
    && (forall k :: k in t.receipts ==> k in t'.receipts && t'.receipts[k] == t.receipts[k])
  }

  ghost predicate AccessSound(t: Tables) {
    SessionsSound(t) && OneSessionPerFamily(t) && OneOpenFamily(t) && OpenForActive(t)
  }

  /** Sessions stay sound as long as bound active members stay bound and active. */
  lemma SameAccess(t: Tables, t': Tables)
    requires AccessSound(t) && t'.families == t.families && t'.sessions == t.sessions
    requires forall m :: m in t.members && ActiveBound(t.members[m]) ==>
               m in t'.members && t'.members[m].active && t'.members[m].identity == t.members[m].identity
    ensures AccessSound(t')
  {
    forall h | h in t'.sessions ensures SessionSound(t', t'.sessions[h]) {
      assert SessionSound(t, t.sessions[h]);
    }
    forall f, m | OpenFor(t', f, m) ensures OpenFor(t, f, m) {}
  }

  lemma AdmitKeepsMembers(t: Tables, plan: Plan, l: Login, now: int)
    requires MembersSound(t) && Admit(t, plan, l, now).Some?
    ensures MembersSound(Admit(t, plan, l, now).value) && Grows(t, Admit(t, plan, l, now).value)
  {
    var t' := Admit(t, plan, l, now).value;
    if plan.Invited? {
      forall i | i in t.members && ActiveBound(t.members[i]) ensures t.members[i].identity != Some(l.identity) {
        assert !IdentityTaken(t.members, l.identity);
      }
    }
    if !plan.Existing? {
      assert ActiveBound(t'.members[plan.memberId]);
    }
  }

  /** Closing families leaves the other members' sessions sound, whether or not this member stays active. */
  lemma CloseKeeps(t: Tables, t1: Tables, id: string, now: int)
    requires AccessSound(t) && t1.families == t.families && t1.sessions == t.sessions
    requires forall m :: m in t.members && m != id ==> m in t1.members && t1.members[m] == t.members[m]
    ensures var t' := CloseFamilies(t1, id, now);
      && AccessSound(t') && (forall f :: !OpenFor(t', f, id))
      && t'.members == t1.members && t'.bootstrap == t1.bootstrap && t'.receipts == t1.receipts
  {
    var t' := CloseFamilies(t1, id, now);
    forall h | h in t'.sessions ensures SessionSound(t', t'.sessions[h]) {
      assert SessionSound(t, t.sessions[h]);
    }
    forall f, m | OpenFor(t', f, m) ensures OpenFor(t, f, m) {}
  }

  /** A new open family with one session for a member that has none open. */
  lemma OpenKeeps(t: Tables, id: string, f: string, h: string, s: Session)
    requires AccessSound(t) && f !in t.families && h !in t.sessions && s.familyId == f
    requires id in t.members && t.members[id].active && t.members[id].identity == Some(s.identity)
    requires forall f' :: !OpenFor(t, f', id)
    ensures AccessSound(t.(families := t.families[f := Family(id, None)], sessions := t.sessions[h := s]))
  {
    var t' := t.(families := t.families[f := Family(id, None)], sessions := t.sessions[h := s]);
    forall k | k in t'.sessions ensures SessionSound(t', t'.sessions[k]) && (k != h ==> t'.sessions[k].familyId != f) {
      assert k != h ==> SessionSound(t, t.sessions[k]);
    }
    forall g, g', m | OpenFor(t', g, m) && OpenFor(t', g', m) ensures g == g' {
      assert g != f ==> OpenFor(t, g, m);
      assert g' != f ==> OpenFor(t, g', m);
    }
    forall g, m | OpenFor(t', g, m) ensures m in t'.members && ActiveBound(t'.members[m]) {
      assert g != f ==> OpenFor(t, g, m);
    }
  }

  lemma AdmitKeepsAccess(t: Tables, plan: Plan, l: Login, now: int)
    requires AccessSound(t) && Admit(t, plan, l, now).Some?
    ensures AccessSound(Admit(t, plan, l, now).value)
  {
    SameAccess(t, Admit(t, plan, l, now).value);
  }

  lemma LoginKeeps(t: Tables, plan: Plan, l: Login, now: int)
    requires Inv(t) && LoginBatch(t, plan, l, now).Some?
    ensures Inv(LoginBatch(t, plan, l, now).value) && Grows(t, LoginBatch(t, plan, l, now).value)
  {
    AdmitKeepsMembers(t, plan, l, now);
    AdmitKeepsAccess(t, plan, l, now);
    var t1 := Admit(t, plan, l, now).value;
    CloseKeeps(t1, t1, plan.memberId, now);
    OpenKeeps(CloseFamilies(t1, plan.memberId, now), plan.memberId, l.familyId, l.sessionHash,
              Session(l.familyId, l.csrfHash, l.identity, now, now + SESSION_TTL_SECONDS));
  }

  lemma RevokeKeeps(t: Tables, h: string, m: string, now: int)
    requires Inv(t) && RevokeBatch(t, h, m, now).Some?
    ensures Inv(RevokeBatch(t, h, m, now).value) && Grows(t, RevokeBatch(t, h, m, now).value)
  {
    var t' := RevokeBatch(t, h, m, now).value;
    forall k | k in t'.sessions ensures SessionSound(t', t'.sessions[k]) {
      assert SessionSound(t, t.sessions[k]);
    }
    forall f, m | OpenFor(t', f, m) ensures OpenFor(t, f, m) {}
  }

  lemma AddKeeps(t: Tables, c: Context, key: string, id: string, email: string, now: int)
    requires Inv(t) && AddBatch(t, c, key, id, email, now).Some?
    ensures Inv(AddBatch(t, c, key, id, email, now).value) && Grows(t, AddBatch(t, c, key, id, email, now).value)
  {
    var t' := AddBatch(t, c, key, id, email, now).value;
    forall i | i in t.members && t.members[i].active ensures t.members[i].email != email {
      assert !EmailTaken(t.members, email);
    }
    assert ActiveBound(t'.members[c.memberId]);
    SameAccess(t, t');
  }

  lemma RemoveKeeps(t: Tables, c: Context, key: string, expected: Etag, id: string, revision: nat, now: int)
    requires Inv(t) && RemoveBatch(t, c, key, expected, id, revision, now).Some?
    ensures Inv(RemoveBatch(t, c, key, expected, id, revision, now).value) && Grows(t, RemoveBatch(t, c, key, expected, id, revision, now).value)
  {
    var t1 := t.(receipts := t.receipts[ReceiptKey(c.memberId, RemoveMember, key) := OfRemove(id, expected)],
                 members := t.members[id := t.members[id].(active := false, revision := revision + 1)]);
    assert ActiveBound(t1.members[c.memberId]);
    CloseKeeps(t, t1, id, now);
  }

  lemma StepKeeps(t: Tables, a: Action, now: int)
    requires Inv(t)
    ensures Inv(Step(t, a, now)) && Grows(t, Step(t, a, now))
  {
    if Attempt(t, a, now).Some? {
      match a
      case CompleteLogin(plan, l) => LoginKeeps(t, plan, l, now);
      case RevokeSession(h, m) => RevokeKeeps(t, h, m, now);
      case Add(c, key, id, email) => AddKeeps(t, c, key, id, email, now);
      case Remove(c, key, expected, id, revision) => RemoveKeeps(t, c, key, expected, id, revision, now);
    }
  }

  lemma GrowsTransitively(t: Tables, t1: Tables, t2: Tables)
    requires Grows(t, t1) && Grows(t1, t2)
    ensures Grows(t, t2)
  {
  }

  lemma {:induction false} RunKeeps(t: Tables, actions: seq<(Action, int)>)
    requires Inv(t)
    ensures Inv(Run(t, actions)) && Grows(t, Run(t, actions))
  {
    if actions != [] {
      var earlier := actions[..|actions| - 1];
      RunKeeps(t, earlier);
      StepKeeps(Run(t, earlier), actions[|actions| - 1].0, actions[|actions| - 1].1);
      GrowsTransitively(t, Run(t, earlier), Run(t, actions));
    }
  }

  // ---------------------------------------------------------------- theorems

  /** Bootstrap succeeds at most once, and from then on some active bound administrator always exists. */
  lemma {:induction false} SomeoneAlwaysAdministers(actions: seq<(Action, int)>, later: seq<(Action, int)>, l: Login, id: string, now: int)
    requires Run(Init, actions).bootstrap.Some?
    ensures var t := Run(Run(Init, actions), later);
      && t.bootstrap == Run(Init, actions).bootstrap
      && (exists id :: id in t.members && ActiveBound(t.members[id]))
      && LoginBatch(t, Bootstrap(id), l, now) == None
  {
    RunKeeps(Init, actions);
    RunKeeps(Run(Init, actions), later);
  }

  /** Every stored session is one its holder may use: its family is open, its member active and bound to its identity. */
  lemma {:induction false} SessionsAreLive(actions: seq<(Action, int)>, h: string, f: string, f': string, m: string)
    ensures var t := Run(Init, actions);
      && (h in t.sessions ==> SessionSound(t, t.sessions[h]))
      && (OpenFor(t, f, m) && OpenFor(t, f', m) ==> f == f')
  {
    RunKeeps(Init, actions);
  }

  /** A receipt tells of a member that was added, or of one that is removed. */
  ghost predicate Tells(t: Tables, request: Fingerprint) {
    match request
    case OfAdd(email) => exists id :: id in t.members && t.members[id].email == email
    case OfRemove(id, _) => id in t.members && !t.members[id].active
  }

  ghost predicate ReceiptsTell(t: Tables) {
    forall k :: k in t.receipts ==> Tells(t, t.receipts[k])
  }

  lemma StepReceiptsTell(t: Tables, a: Action, now: int)
    requires ReceiptsTell(t)
    ensures ReceiptsTell(Step(t, a, now))
  {
    var t' := Step(t, a, now);
    forall k | k in t'.receipts ensures Tells(t', t'.receipts[k]) {
      if k in t.receipts && t'.receipts[k] == t.receipts[k] {
        assert Tells(t, t.receipts[k]);
        if t.receipts[k].OfAdd? {
          var id :| id in t.members && t.members[id].email == t.receipts[k].email;
          assert t'.members[id].email == t.receipts[k].email;
        }
      } else if a.Add? {
        assert t'.members[a.memberId].email == a.email;
      }
    }
  }

  lemma {:induction false} RunReceiptsTell(actions: seq<(Action, int)>)
    ensures ReceiptsTell(Run(Init, actions))
  {
    if actions != [] {
      RunReceiptsTell(actions[..|actions| - 1]);
      StepReceiptsTell(Run(Init, actions[..|actions| - 1]), actions[|actions| - 1].0, actions[|actions| - 1].1);
    }
  }

  /** No open family, no session of any of its families. */
  ghost predicate SignedOut(t: Tables, id: string) {
    && (forall f :: !OpenFor(t, f, id))
    && (forall h :: h in t.sessions ==> t.sessions[h].familyId in t.families && t.families[t.sessions[h].familyId].memberId != id)
  }

  /**
   * Whoever holds the receipt of an addition finds that a member of its email was added; whoever holds
   * that of a removal finds the member inactive, with no open family and no session.
   */
  lemma {:induction false} ReceiptsAreTrue(actions: seq<(Action, int)>, k: ReceiptKey)
    requires k in Run(Init, actions).receipts
    ensures var t := Run(Init, actions);
      && Tells(t, t.receipts[k])
      && (t.receipts[k].OfRemove? ==> SignedOut(t, t.receipts[k].memberId))
  {
    var t := Run(Init, actions);
    RunReceiptsTell(actions);
    RunKeeps(Init, actions);
    assert Tells(t, t.receipts[k]);
  }

  /** Once removed, a member never holds authority, a session or an open family again, and no login of any kind admits it. */
  lemma {:induction false} RemovedMembersStayOut(actions: seq<(Action, int)>, later: seq<(Action, int)>, c: Context, key: string, expected: Etag,
                              id: string, revision: nat, now: int)
    requires RemoveBatch(Run(Init, actions), c, key, expected, id, revision, now).Some?
    ensures var t := Run(RemoveBatch(Run(Init, actions), c, key, expected, id, revision, now).value, later);
      && SignedOut(t, id)
      && (forall c': Context, n :: c'.memberId == id ==> !Authority(t, c', n))
      && (forall plan: Plan, l, n :: plan.memberId == id ==> LoginBatch(t, plan, l, n) == None)
  {
    var t0 := RemoveBatch(Run(Init, actions), c, key, expected, id, revision, now).value;
    RunKeeps(Init, actions);
    RemoveKeeps(Run(Init, actions), c, key, expected, id, revision, now);
    RunKeeps(t0, later);
    var t := Run(t0, later);
    forall plan: Plan, l, n | plan.memberId == id ensures LoginBatch(t, plan, l, n) == None {
      assert !Admit(t, plan, l, n).Some? || Admit(t, plan, l, n).value.members == t.members;
    }
  }
}

/** The repositories' methods, other batches taking effect between any two of their statements. */
module AdminRepositories {
  import opened Wrappers
  import opened AdminTables
  import opened AdminLaws

  datatype Error =
    | Forbidden | IdempotencyConflict | NotFound | PreconditionFailed
    | CannotRemoveSelf | LastAdministrator | AdministratorExists | BatchFailed

  class D1Portal {
    var tables: Tables
    var others: seq<seq<(Action, int)>>
    ghost var trace: seq<(Action, int)>

    ghost predicate Valid()
      reads this
    {
      tables == Run(Init, trace)
    }

    constructor (others: seq<seq<(Action, int)>>)
      ensures Valid() && trace == [] && this.others == others
    {
      tables, trace := Init, [];
      this.others := others;
    }

    /** Batches of other requests that take effect before the next statement. */
    method Between()
      requires Valid()
      modifies this
      ensures Valid() && Grows(old(tables), tables)
      ensures old(others) == [] ==> tables == old(tables) && others == []
    {
      RunKeeps(Init, trace);
      ghost var before := tables;
      if |others| == 0 { return; }
      var now := others[0];
      others := others[1..];
      for i := 0 to |now|
        invariant Valid() && Inv(tables) && Grows(before, tables)
      {
        StepKeeps(tables, now[i].0, now[i].1);
        GrowsTransitively(before, tables, Step(tables, now[i].0, now[i].1));
        tables := Step(tables, now[i].0, now[i].1);
        assert (trace + [now[i]])[..|trace|] == trace;
        trace := trace + [now[i]];
      }
    }

    /** Note that a batch of this request went through. */
    ghost method Took(a: Action, now: int, before: Tables)
      requires before == Run(Init, trace) && Attempt(before, a, now) == Some(tables)
      modifies this`trace
      ensures Valid() && trace == old(trace) + [(a, now)]
    {
      assert (trace + [(a, now)])[..|trace|] == trace;
      trace := trace + [(a, now)];
    }

    /** The active member that satisfies a lookup; at most one does, by the unique indexes. */
    method Find(email: string, identity: Option<Identity>) returns (id: Option<string>)
      ensures id.Some? ==> id.value in tables.members && Looked(tables.members[id.value], email, identity)
      ensures id.None? ==> forall k :: k in tables.members ==> !Looked(tables.members[k], email, identity)
    {
      var rest := tables.members.Keys;
      while rest != {}
        invariant rest <= tables.members.Keys
        invariant forall k :: k in tables.members && k !in rest ==> !Looked(tables.members[k], email, identity)
        decreases rest
      {
        var k := Pick(rest);
        if Looked(tables.members[k], email, identity) { return Some(k); }
        rest := rest - {k};
      }
      return None;
    }

    /** By identity if one is given, else the unbound invitation of an email. */
    static predicate Looked(m: Member, email: string, identity: Option<Identity>) {
      m.active && m.identity == identity && (identity.None? ==> m.email == email)
    }

    /** The statements of the login batch, in order; a failing guard or index undoes those before it. */
    method LoginStatements(plan: Plan, l: Login, now: int) returns (ok: bool)
      modifies this`tables
      ensures ok == LoginBatch(old(tables), plan, l, now).Some?
      ensures tables == if ok then LoginBatch(old(tables), plan, l, now).value else old(tables)
    {
      var before := tables;
      var admitted := Admit(tables, plan, l, now);
      if admitted.None? { return false; }
      tables := admitted.value;
      var id := plan.memberId;
      if id !in tables.members || !tables.members[id].active || tables.members[id].identity != Some(l.identity) {
        tables := before;
        return false;
      }
      tables := CloseFamilies(tables, id, now);
      if l.familyId in tables.families || l.sessionHash in tables.sessions {
        tables := before;
        return false;
      }
      tables := OpenSession(tables, id, l, now);
      return true;
    }

    /**
     * Admit a bound administrator, bind an invitation confirmed after it was made, or bootstrap the first
     * administrator. Whatever happened since the reads, success means a session of an active member bound
     * to this identity, and the only open family of that member.
     */
    method CompleteLogin(l: Login, confirmed: bool, bootstrapEmail: Option<string>, freshId: string, now: int)
        returns (r: Result<string, Error>)
      requires Valid()
      modifies this
      ensures Valid() && (r.Failure? ==> r.error.Forbidden? || r.error.BatchFailed?)
      ensures r.Success? ==>
        && Authority(tables, Context(r.value, l.identity, Some(l.sessionHash)), now)
        && OpenFor(tables, l.familyId, r.value) && (forall f :: OpenFor(tables, f, r.value) ==> f == l.familyId)
      ensures old(others) == [] && l.familyId !in old(tables.families) && l.sessionHash !in old(tables.sessions) ==>
        (r.Success? <==> confirmed && old(Welcome(tables, l, bootstrapEmail))) && (r.Failure? ==> r.error.Forbidden? && tables == old(tables))
    {
      if !confirmed { return Failure(Forbidden); }
      var plan := PlanLogin(l, bootstrapEmail, freshId);
      if plan.None? { return Failure(Forbidden); }
      Between();
      RunKeeps(Init, trace);
      LoginEnds(tables, plan.value, l, now);
      ghost var before := tables;
      var ok := LoginStatements(plan.value, l, now);
      if !ok { return Failure(BatchFailed); }
      Took(AdminTables.CompleteLogin(plan.value, l), now, before);
      RunKeeps(Init, trace);
      return Success(plan.value.memberId);
    }

    /** How a login would be let in, from up to three reads with others in between; not at all if none of them finds a way. */
    method PlanLogin(l: Login, bootstrapEmail: Option<string>, freshId: string) returns (plan: Option<Plan>)
      requires Valid()
      modifies this
      ensures Valid() && (old(others) == [] ==> others == [] && tables == old(tables))
      ensures old(others) == [] ==>
        (plan.Some? <==> old(Welcome(tables, l, bootstrapEmail))) && (plan.Some? ==> Admits(tables, plan.value, l))
    {
      var bound := Find(l.email, Some(l.identity));
      ghost var start := tables;
      Between();
      RunKeeps(Init, trace);
      if bound.Some? {
        BoundIsWelcome(start, bound.value, l, bootstrapEmail);
        return Some(Existing(bound.value));
      }
      var invited := Find(l.email, None);
      if invited.Some? {
        InvitedIsWelcome(tables, invited.value, l, bootstrapEmail);
        if l.confirmedAt < tables.members[invited.value].createdAt { return None; }
        return Some(Invited(invited.value, tables.members[invited.value].revision));
      }
      if bootstrapEmail != Some(l.email) { return None; }
      Between();
      if tables.bootstrap.Some? { return None; }
      return Some(Bootstrap(freshId));
    }

    /** The receipt of a key, once authority is established. */
    method Replayed(c: Context, operation: Operation, key: string, fingerprint: Fingerprint, now: int) returns (r: Result<bool, Error>)
      ensures r == if !Authority(tables, c, now) then Failure(Forbidden)
                   else if ReceiptKey(c.memberId, operation, key) !in tables.receipts then Success(false)
                   else if tables.receipts[ReceiptKey(c.memberId, operation, key)] != fingerprint then Failure(IdempotencyConflict)
                   else Success(true)
    {
      if !Authority(tables, c, now) { return Failure(Forbidden); }
      var k := ReceiptKey(c.memberId, operation, key);
      if k !in tables.receipts { return Success(false); }
      if tables.receipts[k] != fingerprint { return Failure(IdempotencyConflict); }
      return Success(true);
    }

    /** Why a removal cannot go through as the tables stand, if there is a reason. */
    static function Refusal(t: Tables, c: Context, id: string, expected: Etag): Option<Error> {
      if id !in t.members || !t.members[id].active then Some(NotFound)
      else if TagOf(id, t.members[id]) != expected then Some(PreconditionFailed)
      else if id == c.memberId then Some(CannotRemoveSelf)
      else if t.members[id].identity.Some? && !AnotherBound(t.members, id) then Some(LastAdministrator)
      else None
    }

    method RemoveStatements(c: Context, key: string, expected: Etag, id: string, revision: nat, now: int) returns (ok: bool)
      modifies this`tables
      ensures ok == RemoveBatch(old(tables), c, key, expected, id, revision, now).Some?
      ensures tables == if ok then RemoveBatch(old(tables), c, key, expected, id, revision, now).value else old(tables)
    {
      var before := tables;
      var k := ReceiptKey(c.memberId, RemoveMember, key);
      if !Authority(tables, c, now) || k in tables.receipts { return false; }
      tables := tables.(receipts := tables.receipts[k := OfRemove(id, expected)]);
      if id !in tables.members || id == c.memberId || !tables.members[id].active || tables.members[id].revision != revision
         || (tables.members[id].identity.Some? && !AnotherBound(tables.members, id)) {
        tables := before;
        return false;
      }
      tables := tables.(members := tables.members[id := tables.members[id].(active := false, revision := revision + 1)]);
      tables := CloseFamilies(tables, id, now);
      return true;
    }

    static predicate Receipted(t: Tables, c: Context, key: string, id: string, expected: Etag) {
      var k := ReceiptKey(c.memberId, RemoveMember, key);
      k in t.receipts && t.receipts[k] == OfRemove(id, expected)
    }

    /** The batch of a removal planned on an earlier revision. */
    method TryRemove(c: Context, key: string, expected: Etag, id: string, revision: nat, now: int) returns (ok: bool)
      requires Valid()
      modifies this`tables, this`trace
      ensures Valid() && Grows(old(tables), tables)
      ensures ok ==> Receipted(tables, c, key, id, expected) && id in tables.members && !tables.members[id].active
      ensures ok ==> c.memberId in tables.members && ActiveBound(tables.members[c.memberId]) && Authority(tables, c, now)
      ensures ok <==> RemoveBatch(old(tables), c, key, expected, id, revision, now).Some?
    {
      RunKeeps(Init, trace);
      ghost var before := tables;
      ok := RemoveStatements(c, key, expected, id, revision, now);
      if ok {
        Took(AdminTables.Remove(c, key, expected, id, revision), now, before);
        RemoveKeeps(before, c, key, expected, id, revision, now);
      }
    }

    /**
     * Remove a member. Success, whether of this call or replayed, means that the receipt of this key and
     * request stands and that the member is inactive, with no open family and no session.
     */
    method Remove(c: Context, key: string, id: string, expected: Etag, replyLost: bool, now: int)
        returns (r: Result<(), Error>)
      requires Valid()
      modifies this
      ensures Valid() && Grows(old(tables), tables)
      ensures r.Success? ==> Receipted(tables, c, key, id, expected)
      ensures r.Success? ==> id in tables.members && !tables.members[id].active && SignedOut(tables, id)
      ensures !old(Authority(tables, c, now)) ==> r == Failure(Forbidden) && tables == old(tables)
      ensures old(Authority(tables, c, now)) && ReceiptKey(c.memberId, RemoveMember, key) in old(tables.receipts) ==>
        tables == old(tables) && r == if old(Receipted(tables, c, key, id, expected)) then Success(()) else Failure(IdempotencyConflict)
      ensures old(Authority(tables, c, now)) && ReceiptKey(c.memberId, RemoveMember, key) !in old(tables.receipts)
              && old(Refusal(tables, c, id, expected)).Some? ==>
        tables == old(tables) && r == Failure(old(Refusal(tables, c, id, expected)).value)
      ensures old(others) == [] && old(Authority(tables, c, now)) && ReceiptKey(c.memberId, RemoveMember, key) !in old(tables.receipts)
              && old(Refusal(tables, c, id, expected)).None? ==>
        r.Success?
    {
      var previous := Replayed(c, RemoveMember, key, OfRemove(id, expected), now);
      ghost var start := tables;
      if previous.Failure? { return Failure(previous.error); }
      if previous.value {
        ReceiptsAreTrue(trace, ReceiptKey(c.memberId, RemoveMember, key));
        return Success(());
      }
      var refusal := Refusal(tables, c, id, expected);
      if refusal.Some? { return Failure(refusal.value); }
      var revision := tables.members[id].revision;
      Between();
      ghost var second := tables;
      var ok := TryRemove(c, key, expected, id, revision, now);
      GrowsTransitively(start, second, tables);
      if ok && !replyLost {
        ReceiptsAreTrue(trace, ReceiptKey(c.memberId, RemoveMember, key));
        return Success(());
      }
      ghost var third := tables;
      Between();
      GrowsTransitively(start, third, tables);
      var concurrent := Replayed(c, RemoveMember, key, OfRemove(id, expected), now);
      if concurrent.Failure? { return Failure(concurrent.error); }
      if concurrent.value {
        ReceiptsAreTrue(trace, ReceiptKey(c.memberId, RemoveMember, key));
        return Success(());
      }
      refusal := Refusal(tables, c, id, expected);
      return Failure(if refusal.Some? then refusal.value else BatchFailed);
    }

    method RevokeSession(sessionHash: string, memberId: string, now: int) returns (ok: bool)
      requires Valid()
      modifies this`tables, this`trace
      ensures Valid() && (ok <==> MayEnd(old(tables), sessionHash, memberId, now))
      ensures if ok then SessionEnded(old(tables), tables, sessionHash, now) else tables == old(tables)
    {
      SigningOutEnds(tables, sessionHash, memberId, now);
      ghost var before := tables;
      if sessionHash !in tables.sessions || tables.sessions[sessionHash].expiresAt <= now { return false; }
      var f := tables.sessions[sessionHash].familyId;
      if memberId !in tables.members || !tables.members[memberId].active { return false; }
      if f !in tables.families || tables.families[f] != Family(memberId, None) { return false; }
      tables := tables.(families := tables.families[f := tables.families[f].(revokedAt := Some(now))]);
      tables := tables.(sessions := tables.sessions - {sessionHash});
      Took(AdminTables.RevokeSession(sessionHash, memberId), now, before);
      return true;
    }

    method AddStatements(c: Context, key: string, id: string, email: string, now: int) returns (ok: bool)
      modifies this`tables
      ensures ok == AddBatch(old(tables), c, key, id, email, now).Some?
      ensures tables == if ok then AddBatch(old(tables), c, key, id, email, now).value else old(tables)
    {
      var before := tables;
      var k := ReceiptKey(c.memberId, AddMember, key);
      if !Authority(tables, c, now) || k in tables.receipts { return false; }
      tables := tables.(receipts := tables.receipts[k := OfAdd(email)]);
      if id in tables.members || EmailTaken(tables.members, email) {
        tables := before;
        return false;
      }
      tables := tables.(members := tables.members[id := Member(email, None, true, 0, c.memberId, now)]);
      return true;
    }

    /** Invite a member by email. Success means that the receipt of this key stands and that a member of this email was added. */
    method Add(c: Context, key: string, id: string, email: string, replyLost: bool, now: int)
        returns (r: Result<(), Error>)
      requires Valid()
      modifies this
      ensures Valid()
      ensures r.Success? ==> ReceiptKey(c.memberId, AddMember, key) in tables.receipts
      ensures r.Success? ==> tables.receipts[ReceiptKey(c.memberId, AddMember, key)] == OfAdd(email)
      ensures r.Success? ==> exists m :: m in tables.members && tables.members[m].email == email
      ensures r == Failure(AdministratorExists) ==> EmailTaken(tables.members, email)
      ensures !old(Authority(tables, c, now)) ==> r == Failure(Forbidden) && tables == old(tables)
      ensures old(Authority(tables, c, now)) && ReceiptKey(c.memberId, AddMember, key) in old(tables.receipts) ==>
        tables == old(tables)
        && r == if old(tables.receipts)[ReceiptKey(c.memberId, AddMember, key)] == OfAdd(email) then Success(()) else Failure(IdempotencyConflict)
      ensures old(others) == [] && old(Authority(tables, c, now)) && ReceiptKey(c.memberId, AddMember, key) !in old(tables.receipts)
              && id !in old(tables.members) ==>
        if old(EmailTaken(tables.members, email)) then r == Failure(AdministratorExists) && tables == old(tables)
        else r.Success? && id in tables.members && tables.members[id] == Member(email, None, true, 0, c.memberId, now)
    {
      var previous := Replayed(c, AddMember, key, OfAdd(email), now);
      if previous.Failure? { return Failure(previous.error); }
      if previous.value {
        ReceiptsAreTrue(trace, ReceiptKey(c.memberId, AddMember, key));
        return Success(());
      }
      Between();
      ghost var before := tables;
      var ok := AddStatements(c, key, id, email, now);
      if ok { Took(AdminTables.Add(c, key, id, email), now, before); }
      if ok && !replyLost {
        assert tables.members[id].email == email;
        return Success(());
      }
      Between();
      var concurrent := Replayed(c, AddMember, key, OfAdd(email), now);
      if concurrent.Failure? { return Failure(concurrent.error); }
      if concurrent.value {
        ReceiptsAreTrue(trace, ReceiptKey(c.memberId, AddMember, key));
        return Success(());
      }
      if EmailTaken(tables.members, email) { return Failure(AdministratorExists); }
      return Failure(BatchFailed);
    }
  }
}
