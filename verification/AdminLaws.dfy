/**
 * What the portal's batches do to its tables, table by table: when each goes through and what it leaves,
 * and what a closed family or a revoked session means for the rest of a run.
 */
module AdminLaws {
  import opened Wrappers
  import opened AdminTables

  predicate SameMembers(t: Tables, t': Tables) {
    t'.members == t.members && t'.bootstrap == t.bootstrap
  }

  predicate OfMember(t: Tables, h: string, id: string) {
    h in t.sessions && t.sessions[h].familyId in t.families && t.families[t.sessions[h].familyId].memberId == id
  }

  /** All families and sessions but those of one member, and this family and session, are as they were. */
  ghost predicate OthersUntouched(t: Tables, t': Tables, id: string, family: Option<string>, session: Option<string>) {
    && (forall f :: f in t.families && t.families[f].memberId != id ==> f in t'.families && t'.families[f] == t.families[f])
    && (forall f :: f in t'.families && Some(f) != family ==> f in t.families && t'.families[f].memberId == t.families[f].memberId)
    && (forall h :: h in t.sessions && !OfMember(t, h, id) ==> h in t'.sessions && t'.sessions[h] == t.sessions[h])
    && (forall h :: h in t'.sessions && Some(h) != session ==> h in t.sessions && t'.sessions[h] == t.sessions[h])
  }

  /** A member's open families are closed at this time, its closed ones stay as they are, and its sessions are gone. */
  ghost predicate FamiliesClosed(t: Tables, t': Tables, id: string, now: int) {
    && (forall f :: f in t.families && t.families[f].memberId == id ==>
          f in t'.families && t'.families[f] == Family(id, Some(if t.families[f].revokedAt.Some? then t.families[f].revokedAt.value else now)))
    && (forall h :: OfMember(t, h, id) && h in t'.sessions ==> t'.sessions[h].familyId !in t.families)
  }

  // ---------------------------------------------------------------- signing out

  /** The session is one the member may end: its own, unexpired, of its open family. */
  predicate MayEnd(t: Tables, h: string, member: string, now: int) {
    && member in t.members && t.members[member].active
    && h in t.sessions && now < t.sessions[h].expiresAt
    && t.sessions[h].familyId in t.families && t.families[t.sessions[h].familyId].memberId == member
    && t.families[t.sessions[h].familyId].revokedAt.None?
  }

  /** This session is gone and its family closed; nobody's authority can rest on it, and everything else is as it was. */
  ghost predicate SessionEnded(t: Tables, t': Tables, h: string, now: int)
    requires h in t.sessions
  {
    var f := t.sessions[h].familyId;
    && h !in t'.sessions && f in t'.families && t'.families[f].revokedAt == Some(now)
    && f in t.families && t'.families[f].memberId == t.families[f].memberId
    && t'.families.Keys == t.families.Keys && (forall g :: g in t.families && g != f ==> t'.families[g] == t.families[g])
    && t'.sessions.Keys == t.sessions.Keys - {h} && (forall k :: k in t'.sessions ==> t'.sessions[k] == t.sessions[k])
    && SameMembers(t, t') && t'.receipts == t.receipts
    && forall c: Context, n :: c.sessionHash == Some(h) ==> !Authority(t', c, n)
  }

  lemma SigningOutEnds(t: Tables, h: string, member: string, now: int)
    ensures RevokeBatch(t, h, member, now).Some? <==> MayEnd(t, h, member, now)
    ensures MayEnd(t, h, member, now) ==> SessionEnded(t, RevokeBatch(t, h, member, now).value, h, now)
  {
  }

  /** A family once closed stays closed, by whomever and at what time it was. */
  lemma {:induction false} ClosedFamiliesStayClosed(t: Tables, actions: seq<(Action, int)>, f: string)
    requires f in t.families && t.families[f].revokedAt.Some?
    ensures f in Run(t, actions).families && Run(t, actions).families[f] == t.families[f]
  {
    if actions != [] {
      var last := |actions| - 1;
      ClosedFamiliesStayClosed(t, actions[..last], f);
    }
  }

  lemma {:induction false} LoginBefore(t: Tables, actions: seq<(Action, int)>, h: string) returns (k: nat)
    requires h !in t.sessions && h in Run(t, actions).sessions
    ensures k < |actions| && actions[k].0.CompleteLogin? && actions[k].0.login.sessionHash == h
  {
    var last := |actions| - 1;
    if h in Run(t, actions[..last]).sessions {
      k := LoginBefore(t, actions[..last], h);
    } else {
      k := last;
    }
  }

  /** After signing out, whatever happens, nobody has authority by that session again until a login stores its hash anew; its family never opens again. */
  lemma {:induction false} SignedOutStaysOut(actions: seq<(Action, int)>, later: seq<(Action, int)>, h: string, member: string, now: int, c: Context, n: int)
    requires MayEnd(Run(Init, actions), h, member, now) && c.sessionHash == Some(h)
    ensures var t := RevokeBatch(Run(Init, actions), h, member, now);
      && t.Some?
      && !OpenFor(Run(t.value, later), Run(Init, actions).sessions[h].familyId, member)
      && (Authority(Run(t.value, later), c, n) ==>
            exists k :: 0 <= k < |later| && later[k].0.CompleteLogin? && later[k].0.login.sessionHash == h)
  {
    SigningOutEnds(Run(Init, actions), h, member, now);
    var t := RevokeBatch(Run(Init, actions), h, member, now).value;
    ClosedFamiliesStayClosed(t, later, Run(Init, actions).sessions[h].familyId);
    if Authority(Run(t, later), c, n) {
      var k := LoginBefore(t, later, h);
    }
  }

  // ---------------------------------------------------------------- signing in

  /** The plan still holds: a bound member, an unbound invitation confirmed since, or nobody yet. */
  predicate Admits(t: Tables, plan: Plan, l: Login) {
    match plan
    case Existing(id) => id in t.members && t.members[id].active && t.members[id].identity == Some(l.identity)
    case Invited(id, revision) =>
      && id in t.members && t.members[id].active && t.members[id].identity.None? && t.members[id].email == l.email
      && t.members[id].revision == revision && t.members[id].createdAt <= l.confirmedAt
      && (forall other :: other in t.members && t.members[other].active ==> t.members[other].identity != Some(l.identity))
    case Bootstrap(_) => t.bootstrap.None? && t.members == map[]
  }

  /** Neither the family's nor the session's key is in the way; the member's own sessions are not. */
  predicate KeysFree(t: Tables, id: string, l: Login) {
    l.familyId !in t.families && (l.sessionHash in t.sessions ==> OfMember(t, l.sessionHash, id))
  }

  /** The member as it is after the login: bound to the identity, if it was not. */
  predicate BoundBy(t: Tables, t': Tables, plan: Plan, l: Login, now: int) {
    var id := plan.memberId;
    && id in t'.members && (forall m :: m in t.members && m != id ==> m in t'.members && t'.members[m] == t.members[m])
    && t'.members.Keys == t.members.Keys + {id}
    && t'.members[id].active && t'.members[id].identity == Some(l.identity)
    && match plan
       case Existing(_) => SameMembers(t, t')
       case Invited(_, revision) =>
         && t'.bootstrap == t.bootstrap && id in t.members && t'.members[id].revision == revision + 1
         && t'.members[id].email == t.members[id].email && t'.members[id].addedBy == t.members[id].addedBy
         && t'.members[id].createdAt == t.members[id].createdAt
       case Bootstrap(_) =>
         && t'.bootstrap == Some(id) && t'.members[id].email == l.email && t'.members[id].createdAt == now
         && t'.members[id].revision == 0 && t'.members[id].addedBy == "bootstrap"
  }

  /** One open family and one session of it for eight hours, in place of all the member had. */
  ghost predicate SignedIn(t: Tables, t': Tables, id: string, l: Login, now: int) {
    && l.familyId in t'.families && t'.families[l.familyId] == Family(id, None)
    && l.sessionHash in t'.sessions
    && t'.sessions[l.sessionHash] == Session(l.familyId, l.csrfHash, l.identity, now, now + 8 * 3600)
    && FamiliesClosed(t, t', id, now) && OthersUntouched(t, t', id, Some(l.familyId), Some(l.sessionHash))
    && t'.receipts == t.receipts
  }

  lemma AdmitAdmits(t: Tables, plan: Plan, l: Login, now: int)
    ensures var t1 := Admit(t, plan, l, now);
      (t1.Some? && plan.memberId in t1.value.members && t1.value.members[plan.memberId].active
       && t1.value.members[plan.memberId].identity == Some(l.identity)) <==> Admits(t, plan, l)
    ensures Admits(t, plan, l) ==>
      var t1 := Admit(t, plan, l, now).value;
      BoundBy(t, t1, plan, l, now) && t1.families == t.families && t1.sessions == t.sessions && t1.receipts == t.receipts
  {
    if plan.Invited? {
      assert IdentityTaken(t.members, l.identity)
             <==> !(forall other :: other in t.members && t.members[other].active ==> t.members[other].identity != Some(l.identity));
    }
  }

  lemma OpeningSignsIn(t: Tables, t1: Tables, id: string, l: Login, now: int)
    requires t1.families == t.families && t1.sessions == t.sessions && t1.receipts == t.receipts
    requires forall h :: h in t.sessions ==> t.sessions[h].familyId in t.families
    requires KeysFree(t, id, l)
    ensures SignedIn(t, OpenSession(CloseFamilies(t1, id, now), id, l, now), id, l, now)
  {
    var t2 := CloseFamilies(t1, id, now);
    assert forall h :: OfMember(t1, h, id) == OfMember(t, h, id);
    assert l.familyId !in t2.families && l.sessionHash !in t2.sessions;
  }

  lemma LoginGoesThrough(t: Tables, plan: Plan, l: Login, now: int)
    requires forall h :: h in t.sessions ==> t.sessions[h].familyId in t.families
    ensures LoginBatch(t, plan, l, now).Some? <==> Admits(t, plan, l) && KeysFree(t, plan.memberId, l)
    ensures LoginBatch(t, plan, l, now).Some? ==>
      var t1 := Admit(t, plan, l, now);
      && t1.Some?
      && LoginBatch(t, plan, l, now).value == OpenSession(CloseFamilies(t1.value, plan.memberId, now), plan.memberId, l, now)
  {
    AdmitAdmits(t, plan, l, now);
    if Admits(t, plan, l) {
      var t1 := Admit(t, plan, l, now).value;
      assert forall h :: OfMember(t1, h, plan.memberId) == OfMember(t, h, plan.memberId);
    }
  }

  /** When a login goes through and what it leaves. */
  lemma LoginEnds(t: Tables, plan: Plan, l: Login, now: int)
    requires Inv(t)
    ensures LoginBatch(t, plan, l, now).Some? <==> Admits(t, plan, l) && KeysFree(t, plan.memberId, l)
    ensures LoginBatch(t, plan, l, now).Some? ==>
      var t' := LoginBatch(t, plan, l, now).value; BoundBy(t, t', plan, l, now) && SignedIn(t, t', plan.memberId, l, now)
  {
    SessionsHaveFamilies(t);
    LoginGoesThrough(t, plan, l, now);
    AdmitAdmits(t, plan, l, now);
    if LoginBatch(t, plan, l, now).Some? {
      OpeningSignsIn(t, Admit(t, plan, l, now).value, plan.memberId, l, now);
    }
  }

  predicate BoundTo(t: Tables, m: string, identity: Identity) {
    m in t.members && t.members[m].active && t.members[m].identity == Some(identity)
  }

  predicate InvitedAs(t: Tables, m: string, email: string) {
    m in t.members && t.members[m].active && t.members[m].identity.None? && t.members[m].email == email
  }

  /** An administrator bound to this identity, else one invited by this email before it was confirmed, else the first of all. */
  ghost predicate Welcome(t: Tables, l: Login, bootstrapEmail: Option<string>) {
    || (exists m :: BoundTo(t, m, l.identity))
    || (exists m :: InvitedAs(t, m, l.email) && t.members[m].createdAt <= l.confirmedAt)
    || (t.members == map[] && bootstrapEmail == Some(l.email))
  }

  lemma BoundIsWelcome(t: Tables, m: string, l: Login, bootstrapEmail: Option<string>)
    requires BoundTo(t, m, l.identity)
    ensures Welcome(t, l, bootstrapEmail) && Admits(t, Existing(m), l)
  {
  }

  /** An invitation is the only one of its email; it counts if nobody is bound to the identity, and if it is older than the login. */
  lemma InvitedIsWelcome(t: Tables, m: string, l: Login, bootstrapEmail: Option<string>)
    requires Inv(t) && InvitedAs(t, m, l.email)
    ensures (forall o :: !BoundTo(t, o, l.identity)) ==>
      && (Welcome(t, l, bootstrapEmail) <==> t.members[m].createdAt <= l.confirmedAt)
      && (Admits(t, Invited(m, t.members[m].revision), l) <==> t.members[m].createdAt <= l.confirmedAt)
  {
    if forall o :: !BoundTo(t, o, l.identity) {
      forall o | o in t.members && t.members[o].active ensures t.members[o].identity != Some(l.identity) {
        assert !BoundTo(t, o, l.identity);
      }
    }
  }

  lemma SessionsHaveFamilies(t: Tables)
    requires Inv(t)
    ensures forall h :: h in t.sessions ==> t.sessions[h].familyId in t.families
  {
    forall h | h in t.sessions ensures t.sessions[h].familyId in t.families {
      assert SessionSound(t, t.sessions[h]);
    }
  }

  // ---------------------------------------------------------------- members

  /** The batch inserts this receipt and the actor may act; nothing but members, receipts and, for a removal, sessions changes. */
  predicate MayAct(t: Tables, c: Context, operation: Operation, key: string, now: int) {
    Authority(t, c, now) && ReceiptKey(c.memberId, operation, key) !in t.receipts
  }

  /** Acting needs an active member bound to the identity, and in a browser an unexpired session of its open family. */
  lemma AuthorityMeans(t: Tables, c: Context, now: int)
    ensures Authority(t, c, now) <==>
      && c.memberId in t.members && t.members[c.memberId].active && t.members[c.memberId].identity == Some(c.identity)
      && (c.sessionHash == None || exists h :: c.sessionHash == Some(h) && MayEnd(t, h, c.memberId, now))
  {
    if c.sessionHash.Some? {
      assert MayEnd(t, c.sessionHash.value, c.memberId, now) ==> c.sessionHash == Some(c.sessionHash.value);
    }
  }

  lemma AddingEnds(t: Tables, c: Context, key: string, id: string, email: string, now: int)
    ensures AddBatch(t, c, key, id, email, now).Some? <==>
      MayAct(t, c, AddMember, key, now) && id !in t.members
      && forall m :: m in t.members && t.members[m].active ==> t.members[m].email != email
    ensures AddBatch(t, c, key, id, email, now).Some? ==>
      var t' := AddBatch(t, c, key, id, email, now).value;
      && t'.members.Keys == t.members.Keys + {id} && (forall m :: m in t.members ==> t'.members[m] == t.members[m])
      && t'.members[id].active && t'.members[id].identity.None? && t'.members[id].email == email
      && t'.members[id].addedBy == c.memberId && t'.members[id].createdAt == now && t'.members[id].revision == 0
      && t'.receipts == t.receipts[ReceiptKey(c.memberId, AddMember, key) := OfAdd(email)]
      && t'.families == t.families && t'.sessions == t.sessions && t'.bootstrap == t.bootstrap
  {
    assert EmailTaken(t.members, email) <==> !(forall m :: m in t.members && t.members[m].active ==> t.members[m].email != email);
  }

  lemma RemovingEnds(t: Tables, c: Context, key: string, expected: Etag, id: string, revision: nat, now: int)
    requires Inv(t)
    ensures RemoveBatch(t, c, key, expected, id, revision, now).Some? <==>
      && MayAct(t, c, RemoveMember, key, now) && id in t.members && id != c.memberId && t.members[id].active && t.members[id].revision == revision
    ensures RemoveBatch(t, c, key, expected, id, revision, now).Some? ==>
      var t' := RemoveBatch(t, c, key, expected, id, revision, now).value;
      && t'.members == t.members[id := Member(t.members[id].email, t.members[id].identity, false, revision + 1, t.members[id].addedBy, t.members[id].createdAt)]
      && t'.receipts == t.receipts[ReceiptKey(c.memberId, RemoveMember, key) := OfRemove(id, expected)] && t'.bootstrap == t.bootstrap
      && FamiliesClosed(t, t', id, now) && OthersUntouched(t, t', id, None, None)
  {
    SessionsHaveFamilies(t);
    if MayAct(t, c, RemoveMember, key, now) && id in t.members && id != c.memberId {
      assert ActiveBound(t.members[c.memberId]) && AnotherBound(t.members, id);
      var t1 := t.(receipts := t.receipts[ReceiptKey(c.memberId, RemoveMember, key) := OfRemove(id, expected)],
                   members := t.members[id := t.members[id].(active := false, revision := revision + 1)]);
      assert forall h :: OfMember(t, h, id) == OfMember(t1, h, id);
    }
  }

  /** An invited administrator is let in by a login of that email, confirmed since, whose identity and keys are new, and may then act. */
  lemma {:induction false} InvitedMayLogIn(actions: seq<(Action, int)>, c: Context, key: string, id: string, email: string, now: int, l: Login, later: int)
    requires AddBatch(Run(Init, actions), c, key, id, email, now).Some?
    requires l.email == email && now <= l.confirmedAt && l.familyId !in Run(Init, actions).families && l.sessionHash !in Run(Init, actions).sessions
    requires forall m :: m in Run(Init, actions).members && Run(Init, actions).members[m].active ==> Run(Init, actions).members[m].identity != Some(l.identity)
    ensures var t := AddBatch(Run(Init, actions), c, key, id, email, now).value;
      var t' := LoginBatch(t, Invited(id, 0), l, later);
      t'.Some? && Authority(t'.value, Context(id, l.identity, Some(l.sessionHash)), later)
  {
    RunKeeps(Init, actions);
    AddKeeps(Run(Init, actions), c, key, id, email, now);
    AddingEnds(Run(Init, actions), c, key, id, email, now);
    LoginEnds(AddBatch(Run(Init, actions), c, key, id, email, now).value, Invited(id, 0), l, later);
  }
}
