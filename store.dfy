/**
 * The record store as in-memory sequences (in document order), with the
 * queries and writes the handlers issue: `findOne`, `find`, the upsert of a
 * user's group, an in-place edit of a Schedule entry and `deleteMany`.
 */
module Store {
  import opened Wrappers
  import opened Records

  /* ---------- User ---------- */

  /** Each Telegram user has at most one binding. */
  predicate UniqueIds(users: seq<UserBinding>) {
    forall i, j :: 0 <= i < j < |users| ==> users[i].userId != users[j].userId
  }

  /** `User.findOne({ userId })`: the first binding of `uid`. */
  function FindUser(users: seq<UserBinding>, uid: ChatId): (r: Option<UserBinding>)
    ensures r.Some? ==> r.value in users && r.value.userId == uid
    ensures r.None? <==> forall u :: u in users ==> u.userId != uid
  {
    if users == [] then None
    else if users[0].userId == uid then Some(users[0])
    else FindUser(users[1..], uid)
  }

  /**
   * `User.findOneAndUpdate({ userId }, { group }, { upsert: true })`: sets the
   * group of the first binding of `uid`, or appends a binding when there is none.
   */
  function Upsert(users: seq<UserBinding>, uid: ChatId, group: string): (r: seq<UserBinding>)
    ensures FindUser(r, uid) == Some(UserBinding(uid, group))
    ensures forall v :: v != uid ==> FindUser(r, v) == FindUser(users, v)
    ensures |r| == if FindUser(users, uid).Some? then |users| else |users| + 1
  {
    if users == [] then [UserBinding(uid, group)]
    else if users[0].userId == uid then [UserBinding(uid, group)] + users[1..]
    else [users[0]] + Upsert(users[1..], uid, group)
  }

  /** How many bindings `uid` has. */
  function CountId(users: seq<UserBinding>, uid: ChatId): nat {
    if users == [] then 0
    else (if users[0].userId == uid then 1 else 0) + CountId(users[1..], uid)
  }

  /** The upsert keeps bindings unique, so after it `uid` has exactly one. */
  lemma {:induction false} UpsertKeepsUnique(users: seq<UserBinding>, uid: ChatId, group: string)
    requires UniqueIds(users)
    ensures UniqueIds(Upsert(users, uid, group))
    ensures CountId(Upsert(users, uid, group), uid) == 1
  {
    var r := Upsert(users, uid, group);
    if users != [] {
      TailUnique(users);
      if users[0].userId == uid {
        ConsUnique(UserBinding(uid, group), users[1..]);
      } else {
        var rt := Upsert(users[1..], uid, group);
        UpsertKeepsUnique(users[1..], uid, group);
        assert FindUser(rt, users[0].userId) == FindUser(users[1..], users[0].userId);
        ConsUnique(users[0], rt);
      }
    }
    UniqueCountOne(r, uid);
  }

  /** The tail of a list of unique bindings is unique and avoids the head's id. */
  lemma TailUnique(users: seq<UserBinding>)
    requires UniqueIds(users) && users != []
    ensures UniqueIds(users[1..])
    ensures forall u :: u in users[1..] ==> u.userId != users[0].userId
  {
    forall u | u in users[1..] ensures u.userId != users[0].userId {
      var k :| 0 <= k < |users[1..]| && users[1..][k] == u;
      assert users[k + 1] == u;
    }
  }

  /** A binding whose id the unique rest does not hold keeps them unique in front. */
  lemma ConsUnique(u: UserBinding, rest: seq<UserBinding>)
    requires UniqueIds(rest) && forall v :: v in rest ==> v.userId != u.userId
    ensures UniqueIds([u] + rest)
  {
    var r := [u] + rest;
    forall i, j | 0 <= i < j < |r| ensures r[i].userId != r[j].userId {
      assert r[j] == rest[j - 1];
      if i == 0 {
        assert rest[j - 1] in rest;
      } else {
        assert r[i] == rest[i - 1];
      }
    }
  }

  /** With unique bindings, a user who has one has exactly one. */
  lemma {:induction false} UniqueCountOne(users: seq<UserBinding>, uid: ChatId)
    requires UniqueIds(users) && FindUser(users, uid).Some?
    ensures CountId(users, uid) == 1
  {
    TailUnique(users);
    if users[0].userId == uid {
      NoIdNoCount(users[1..], uid);
    } else {
      UniqueCountOne(users[1..], uid);
    }
  }

  lemma {:induction false} NoIdNoCount(users: seq<UserBinding>, uid: ChatId)
    requires forall u :: u in users ==> u.userId != uid
    ensures CountId(users, uid) == 0
  {
    if users != [] {
      assert users[0] in users;
      assert forall u :: u in users[1..] ==> u in users;
      NoIdNoCount(users[1..], uid);
    }
  }

  /** Choosing the same group twice in a row is the same as choosing it once. */
  lemma {:induction false} UpsertIdempotent(users: seq<UserBinding>, uid: ChatId, group: string)
    ensures Upsert(Upsert(users, uid, group), uid, group) == Upsert(users, uid, group)
  {
    if users != [] && users[0].userId != uid {
      UpsertIdempotent(users[1..], uid, group);
      assert Upsert(users, uid, group)[1..] == Upsert(users[1..], uid, group);
    }
  }

  /** The upsert leaves every other user's binding where and as it was. */
  lemma {:induction false} UpsertKeepsOthers(users: seq<UserBinding>, uid: ChatId, group: string, i: nat)
    requires i < |users| && users[i].userId != uid
    ensures i < |Upsert(users, uid, group)| && Upsert(users, uid, group)[i] == users[i]
  {
    if i > 0 && users[0].userId != uid {
      UpsertKeepsOthers(users[1..], uid, group, i - 1);
    }
  }

  /* ---------- Schedule ---------- */

  /** `Schedule.find({ group })`: the entries of one group, in document order. */
  function SchedulesOf(schedules: seq<ScheduleEntry>, group: string): (r: seq<ScheduleEntry>)
    ensures forall e :: e in r <==> e in schedules && e.group == Some(group)
    ensures |r| <= |schedules|
  {
    if schedules == [] then []
    else (if schedules[0].group == Some(group) then [schedules[0]] else []) + SchedulesOf(schedules[1..], group)
  }

  predicate KeyMatches(e: ScheduleEntry, group: Option<string>, day: Option<string>) {
    e.group == group && e.day == day
  }

  /** `Schedule.findOne({ group, day })`: the position of the first entry with that group and day. */
  function FindSchedule(schedules: seq<ScheduleEntry>, group: Option<string>, day: Option<string>, from: nat): (r: Option<nat>)
    ensures r.Some? ==> from <= r.value < |schedules| && KeyMatches(schedules[r.value], group, day)
    ensures forall j :: from <= j < |schedules| && (r.None? || j < r.value) ==> !KeyMatches(schedules[j], group, day)
    decreases |schedules| - from
  {
    if from >= |schedules| then None
    else if KeyMatches(schedules[from], group, day) then Some(from)
    else FindSchedule(schedules, group, day, from + 1)
  }

  /* ---------- Material ---------- */

  /** `Material.find({ group })`. */
  function MaterialsOf(materials: seq<Material>, group: string): (r: seq<Material>)
    ensures forall m :: m in r <==> m in materials && m.group == Some(group)
    ensures |r| <= |materials|
  {
    if materials == [] then []
    else (if materials[0].group == Some(group) then [materials[0]] else []) + MaterialsOf(materials[1..], group)
  }

  /**
   * `.sort({ date: -1 })` over the materials of a group: every material is
   * stamped with `Date.now` when it is saved and only ever appended, so the
   * newest come last in the store and the sort gives them in reverse store order.
   */
  function LatestFirst(ms: seq<Material>): (r: seq<Material>)
    ensures |r| == |ms|
    ensures forall k :: 0 <= k < |r| ==> r[k] == ms[|ms| - 1 - k]
  {
    if ms == [] then []
    else [ms[|ms| - 1]] + LatestFirst(ms[..|ms| - 1])
  }

  /** The newest-first listing holds every material of the group, as often as the store does. */
  lemma {:induction false} LatestFirstPermutation(ms: seq<Material>)
    ensures multiset(LatestFirst(ms)) == multiset(ms)
  {
    if ms != [] {
      var n := |ms| - 1;
      LatestFirstPermutation(ms[..n]);
      assert ms == ms[..n] + [ms[n]];
    }
  }

  /** `Material.deleteMany({ group })`: every material of that group goes, every other stays. */
  function ClearGroup(materials: seq<Material>, group: Option<string>): (r: seq<Material>)
    ensures forall m :: m in r <==> m in materials && m.group != group
    ensures |r| <= |materials|
  {
    if materials == [] then []
    else (if materials[0].group != group then [materials[0]] else []) + ClearGroup(materials[1..], group)
  }
}
