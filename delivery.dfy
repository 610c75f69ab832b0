/**
 * The fan-outs: a material goes to every user bound to the target group
 * (index.js:423-437), an announcement to every bound user (index.js:511-514).
 * Both are defined over a growing prefix of the user list, the way the
 * `forEach` loops build them.
 */
module Delivery {
  import opened Wrappers
  import opened Records
  import opened Store
  import opened Replies

  /** Every payload of `ps`, in order, addressed to `to`. */
  function Addressed(to: ChatId, ps: seq<Payload>): seq<Send> {
    seq(|ps|, i requires 0 <= i < |ps| => Send(to, ps[i]))
  }

  /** The sends for a material: `ps` to each user whose group equals `group`, in user order. */
  function FanOut(users: seq<UserBinding>, group: Option<string>, ps: seq<Payload>): seq<Send> {
    if users == [] then []
    else
      var u := users[|users| - 1];
      FanOut(users[..|users| - 1], group, ps) + (if Some(u.group) == group then Addressed(u.userId, ps) else [])
  }

  /** The sends for an announcement: one payload to every bound user, in user order. */
  function Broadcast(users: seq<UserBinding>, p: Payload): (r: seq<Send>)
    ensures |r| == |users|
  {
    if users == [] then []
    else Broadcast(users[..|users| - 1], p) + [Send(users[|users| - 1].userId, p)]
  }

  /** The sends of "Посмотреть материалы": one per material of the group, in document order, all to `uid`. */
  function Listing(uid: ChatId, ms: seq<Material>): (r: seq<Send>)
    ensures |r| == |ms|
    ensures forall k :: 0 <= k < |r| ==> r[k] == Send(uid, ListingPayload(ms[k]))
  {
    if ms == [] then []
    else Listing(uid, ms[..|ms| - 1]) + [Send(uid, ListingPayload(ms[|ms| - 1]))]
  }

  /**
   * The sends of the second "Посмотреть материалы" handler: one title line per
   * material, in the order given, all to `chat`; `material.type` is not in the
   * schema, so no description and no file is ever sent.
   */
  function TitleListing(chat: ChatId, ms: seq<Material>): (r: seq<Send>)
    ensures |r| == |ms|
    ensures forall k :: 0 <= k < |r| ==> r[k] == Send(chat, Say(TitleLine(ms[k])))
  {
    if ms == [] then []
    else TitleListing(chat, ms[..|ms| - 1]) + [Send(chat, Say(TitleLine(ms[|ms| - 1])))]
  }

  /** What one chat receives out of a list of sends, in order. */
  function PayloadsTo(sends: seq<Send>, uid: ChatId): seq<Payload> {
    if sends == [] then []
    else (if sends[0].to == uid then [sends[0].payload] else []) + PayloadsTo(sends[1..], uid)
  }

  /** `uid` has a binding to `group`. */
  predicate BoundTo(users: seq<UserBinding>, uid: ChatId, group: Option<string>) {
    exists u :: u in users && u.userId == uid && Some(u.group) == group
  }

  predicate Known(users: seq<UserBinding>, uid: ChatId) {
    exists u :: u in users && u.userId == uid
  }

  lemma {:induction false} PayloadsToAppend(a: seq<Send>, b: seq<Send>, uid: ChatId)
    ensures PayloadsTo(a + b, uid) == PayloadsTo(a, uid) + PayloadsTo(b, uid)
  {
    if a == [] {
      assert a + b == b;
    } else {
      var h := if a[0].to == uid then [a[0].payload] else [];
      assert (a + b)[0] == a[0];
      assert (a + b)[1..] == a[1..] + b;
      assert PayloadsTo(a + b, uid) == h + PayloadsTo(a[1..] + b, uid);
      PayloadsToAppend(a[1..], b, uid);
    }
  }

  lemma {:induction false} PayloadsToAddressed(to: ChatId, ps: seq<Payload>, uid: ChatId)
    ensures PayloadsTo(Addressed(to, ps), uid) == if to == uid then ps else []
  {
    if ps != [] {
      PayloadsToAddressed(to, ps[1..], uid);
      assert Addressed(to, ps)[1..] == Addressed(to, ps[1..]);
    }
  }

  /** A user in the prefix of a unique list is not the last one. */
  lemma LastIsNew(users: seq<UserBinding>)
    requires UniqueIds(users) && users != []
    ensures !Known(users[..|users| - 1], users[|users| - 1].userId)
    ensures UniqueIds(users[..|users| - 1])
  {
    var n := |users| - 1;
    forall u | u in users[..n] ensures u.userId != users[n].userId {
      var k :| 0 <= k < n && users[..n][k] == u;
    }
  }

  /** A binding in a list grown by one is one of the old list's or the new one. */
  lemma BoundToSnoc(users: seq<UserBinding>, uid: ChatId, group: Option<string>)
    requires users != []
    ensures var n := |users| - 1;
      BoundTo(users, uid, group) <==>
        BoundTo(users[..n], uid, group) || (users[n].userId == uid && Some(users[n].group) == group)
  {
    var n := |users| - 1;
    assert users == users[..n] + [users[n]];
    if BoundTo(users, uid, group) {
      var u :| u in users && u.userId == uid && Some(u.group) == group;
      assert u in users[..n] || u == users[n];
    }
  }

  /** A user of a list grown by one is one of the old list's or the new one. */
  lemma KnownSnoc(users: seq<UserBinding>, uid: ChatId)
    requires users != []
    ensures var n := |users| - 1;
      Known(users, uid) <==> Known(users[..n], uid) || users[n].userId == uid
  {
    var n := |users| - 1;
    assert users == users[..n] + [users[n]];
    if Known(users, uid) {
      var u :| u in users && u.userId == uid;
      assert u in users[..n] || u == users[n];
    }
  }

  /** A user bound to some group is known. */
  lemma BoundIsKnown(users: seq<UserBinding>, uid: ChatId, group: Option<string>)
    requires BoundTo(users, uid, group)
    ensures Known(users, uid)
  {
  }

  /**
   * With one binding per user, every user bound to the target group receives
   * exactly the material's payloads, once, and every other chat receives nothing.
   */
  lemma {:induction false} FanOutDelivers(users: seq<UserBinding>, group: Option<string>, ps: seq<Payload>, uid: ChatId)
    requires UniqueIds(users)
    ensures PayloadsTo(FanOut(users, group, ps), uid) == if BoundTo(users, uid, group) then ps else []
  {
    if users != [] {
      var n := |users| - 1;
      var init, u := users[..n], users[n];
      LastIsNew(users);
      FanOutDelivers(init, group, ps, uid);
      var block := if Some(u.group) == group then Addressed(u.userId, ps) else [];
      assert FanOut(users, group, ps) == FanOut(init, group, ps) + block;
      PayloadsToAppend(FanOut(init, group, ps), block, uid);
      if Some(u.group) == group {
        PayloadsToAddressed(u.userId, ps, uid);
      }
      BoundToSnoc(users, uid, group);
      if u.userId == uid && BoundTo(init, uid, group) {
        BoundIsKnown(init, uid, group);
      }
    }
  }

  /** Nobody outside the target group is sent anything. */
  lemma {:induction false} FanOutOnlyToGroup(users: seq<UserBinding>, group: Option<string>, ps: seq<Payload>, k: nat)
    requires k < |FanOut(users, group, ps)|
    ensures BoundTo(users, FanOut(users, group, ps)[k].to, group)
  {
    var n := |users| - 1;
    var init, u := users[..n], users[n];
    var head := FanOut(init, group, ps);
    assert users == init + [u];
    if k < |head| {
      FanOutOnlyToGroup(init, group, ps, k);
      assert forall v :: v in init ==> v in users;
    } else {
      assert FanOut(users, group, ps)[k].to == u.userId;
      assert u in users;
    }
  }

  /** With one binding per user, every bound user receives the announcement exactly once and no one else does. */
  lemma {:induction false} BroadcastDelivers(users: seq<UserBinding>, p: Payload, uid: ChatId)
    requires UniqueIds(users)
    ensures PayloadsTo(Broadcast(users, p), uid) == if Known(users, uid) then [p] else []
  {
    if users != [] {
      var n := |users| - 1;
      var init, u := users[..n], users[n];
      LastIsNew(users);
      BroadcastDelivers(init, p, uid);
      PayloadsToAppend(Broadcast(init, p), [Send(u.userId, p)], uid);
      KnownSnoc(users, uid);
    }
  }
}
