/**
 * What the state machine promises across handlers: the invariant every event
 * keeps, who can turn admin mode on and off, what a button press does to the
 * material prompt and to the user bindings, and who receives a material or
 * an announcement.
 */
module Properties {
  import opened Wrappers
  import opened Strings
  import opened Records
  import opened Replies
  import opened Parse
  import opened Materials
  import opened Store
  import opened Delivery
  import opened Machine

  /* ---------- the invariant ---------- */

  /** Removing a listener keeps the listener part of the invariant. */
  lemma ListenersWithout(ls: seq<Listener>, nextId: nat, schedules: seq<ScheduleEntry>, id: nat)
    requires ListenersOk(ls, nextId, schedules)
    ensures ListenersOk(Without(ls, id), nextId, schedules)
  {
  }

  /** Adding a listener under the next id keeps the listener part of the invariant. */
  lemma ListenersAdd(ls: seq<Listener>, nextId: nat, schedules: seq<ScheduleEntry>, l: Listener)
    requires ListenersOk(ls, nextId, schedules) && l.id == nextId && Fits(l, schedules)
    ensures ListenersOk(ls + [l], nextId + 1, schedules)
  {
    forall i, j | 0 <= i < j < |ls + [l]| ensures (ls + [l])[i].id != (ls + [l])[j].id {
      if j == |ls| {
        assert ls[i] in ls;
      }
    }
  }

  /** More schedule entries keep every listener fitting. */
  lemma ListenersGrow(ls: seq<Listener>, nextId: nat, schedules: seq<ScheduleEntry>, more: seq<ScheduleEntry>)
    requires ListenersOk(ls, nextId, schedules) && |more| >= |schedules|
    ensures ListenersOk(ls, nextId, more)
  {
  }

  lemma RegisterValid(s: State, l: Listener)
    requires Valid(s) && l.id == s.nextId && Fits(l, s.schedules)
    ensures Valid(Register(s, l))
  {
    ListenersAdd(s.listeners, s.nextId, s.schedules, l);
  }

  lemma UnregisterValid(s: State, id: nat)
    requires Valid(s)
    ensures Valid(Unregister(s, id))
  {
    ListenersWithout(s.listeners, s.nextId, s.schedules, id);
  }

  lemma FireNameValid(s: State, l: Listener, msg: Message)
    requires Valid(s) && l.AwaitName?
    ensures Valid(FireName(s, l, msg))
  {
    UnregisterValid(s, l.id);
    var s1 := Reply(Unregister(s, l.id), l.chat, AskPasswordText);
    RegisterValid(s1, AwaitPassword(s1.nextId, l.chat, msg.text));
  }

  lemma FirePasswordValid(s: State, l: Listener, msg: Message)
    requires Valid(s) && l.AwaitPassword?
    ensures Valid(FirePassword(s, l, msg))
  {
    UnregisterValid(s, l.id);
  }

  lemma FireScheduleAddValid(s: State, l: Listener, msg: Message)
    requires Valid(s) && l.AwaitScheduleAdd?
    ensures Valid(FireScheduleAdd(s, l, msg))
  {
    UnregisterValid(s, l.id);
    var s1 := Unregister(s, l.id);
    if msg.text.Some? {
      ListenersGrow(s1.listeners, s1.nextId, s1.schedules, s1.schedules + [ScheduleFromText(msg.text.value)]);
    }
  }

  lemma FireEditFindValid(s: State, l: Listener, msg: Message)
    requires Valid(s) && l.AwaitEditFind?
    ensures Valid(FireEditFind(s, l, msg))
  {
    UnregisterValid(s, l.id);
    var s1 := Unregister(s, l.id);
    if msg.text.Some? {
      var key := EditKey(msg.text.value);
      match FindSchedule(s1.schedules, key.0, key.1, 0)
      case None =>
      case Some(i) =>
        var s2 := Reply(s1, l.chat, CurrentScheduleText(s1.schedules[i]));
        RegisterValid(s2, AwaitEditFields(s2.nextId, l.chat, i));
    }
  }

  lemma FireEditFieldsValid(s: State, l: Listener, msg: Message)
    requires Valid(s) && l.AwaitEditFields? && l.entry < |s.schedules|
    ensures Valid(FireEditFields(s, l, msg))
  {
    UnregisterValid(s, l.id);
    var s1 := Unregister(s, l.id);
    if msg.text.Some? {
      ListenersGrow(s1.listeners, s1.nextId, s1.schedules,
                    s1.schedules[l.entry := Retimed(s1.schedules[l.entry], msg.text.value)]);
    }
  }

  lemma FireAnnouncementValid(s: State, l: Listener, msg: Message)
    requires Valid(s) && l.AwaitAnnouncement?
    ensures Valid(FireAnnouncement(s, l, msg))
  {
    if msg.chatId == l.chat && s.adminMode && Truthy(msg.text) {
      var s1 := Reply(s, l.chat, AnnouncementSentText);
      UnregisterValid(s1.(outbox := s1.outbox + Broadcast(s1.users, Say(AnnouncementText(msg.text.value)))), l.id);
    }
  }

  /** Every run-time listener keeps the invariant, whichever chat the message comes from. */
  lemma FireListenerValid(s: State, l: Listener, msg: Message)
    requires Valid(s) && Fits(l, s.schedules)
    ensures Valid(FireListener(s, l, msg))
  {
    match l
    case AwaitName(_, _) => FireNameValid(s, l, msg);
    case AwaitPassword(_, _, _) => FirePasswordValid(s, l, msg);
    case AwaitScheduleAdd(_, _) => FireScheduleAddValid(s, l, msg);
    case AwaitEditFind(_, _) => FireEditFindValid(s, l, msg);
    case AwaitEditFields(_, _, _) => FireEditFieldsValid(s, l, msg);
    case AwaitAnnouncement(_, _) => FireAnnouncementValid(s, l, msg);
  }

  /** Running a snapshot of listeners keeps the invariant. */
  lemma {:induction false} FireAllValid(s: State, snapshot: seq<Listener>, msg: Message)
    requires Valid(s) && forall l :: l in snapshot ==> Fits(l, s.schedules)
    ensures Valid(FireAll(s, snapshot, msg))
  {
    if snapshot != [] {
      var init := snapshot[..|snapshot| - 1];
      var last := snapshot[|snapshot| - 1];
      assert forall l :: l in init ==> l in snapshot;
      FireAllValid(s, init, msg);
      assert last in snapshot;
      FireListenerValid(FireAll(s, init, msg), last, msg);
    }
  }

  lemma ReplyValid(s: State, to: ChatId, text: string)
    requires Valid(s)
    ensures Valid(Reply(s, to, text))
  {
  }

  /** Every `onText` handler keeps the invariant. */
  lemma RunValid(s: State, c: Command, msg: Message)
    requires Valid(s)
    ensures Valid(Run(s, c, msg))
  {
    var chat := msg.chatId;
    match c
    case AdminCmd => RegisterValid(Reply(s, chat, AskNameText), AwaitName(s.nextId, chat));
    case AddScheduleCmd =>
      if Privileged(s, chat) {
        RegisterValid(Reply(s, chat, AskScheduleText), AwaitScheduleAdd(s.nextId, chat));
      }
    case AddAnnouncementCmd =>
      if Privileged(s, chat) {
        RegisterValid(Reply(s, chat, AskAnnouncementText), AwaitAnnouncement(s.nextId, chat));
      }
    case EditScheduleCmd =>
      if Privileged(s, chat) {
        RegisterValid(Reply(s, chat, AskEditKeyText), AwaitEditFind(s.nextId, chat));
      }
    case _ =>
  }

  /** Any run of matching handlers keeps the invariant. */
  lemma {:induction false} RunMatchingValid(s: State, cmds: seq<Command>, text: string, msg: Message)
    requires Valid(s)
    ensures Valid(RunMatching(s, cmds, text, msg))
  {
    if cmds != [] {
      RunMatchingValid(s, cmds[..|cmds| - 1], text, msg);
      RunValid(RunMatching(s, cmds[..|cmds| - 1], text, msg), cmds[|cmds| - 1], msg);
    }
  }

  /** One inbound message keeps the invariant. */
  lemma OnMessageValid(s: State, msg: Message)
    requires Valid(s)
    ensures Valid(OnMessage(s, msg))
  {
    var s1 := OnMaterial(s, msg);
    assert s1.listeners == s.listeners && s1.schedules == s.schedules;
    FireAllValid(s1, s.listeners, msg);
    var s2 := FireAll(s1, s.listeners, msg);
    if Truthy(msg.text) {
      RunMatchingValid(s2, Router, msg.text.value, msg);
    }
  }

  /** One button press keeps the invariant. */
  lemma OnCallbackValid(s: State, cb: Callback)
    requires Valid(s)
    ensures Valid(OnCallback(s, cb))
  {
    var s1 := OnUserCallback(s, cb);
    SameListenersValid(s, s1);
    SameListenersValid(s1, OnAdminCallback(s1, cb));
  }

  /** A step that keeps the listeners, the id counter, the schedules and the admin pair keeps the invariant if it keeps the prompt condition. */
  lemma SameListenersValid(s: State, r: State)
    requires Valid(s) && r.listeners == s.listeners && r.nextId == s.nextId && r.schedules == s.schedules
    requires r.adminMode == s.adminMode && r.currentAdminChatId == s.currentAdminChatId
    requires !r.waitingForMaterial ==> r.targetGroup.None?
    ensures Valid(r)
  {
  }

  /* ---------- the user bindings ---------- */

  /** Running a snapshot of listeners never changes a user binding. */
  lemma {:induction false} FireAllKeepsUsers(s: State, snapshot: seq<Listener>, msg: Message)
    requires forall l :: l in snapshot ==> Fits(l, s.schedules)
    ensures FireAll(s, snapshot, msg).users == s.users
  {
    if snapshot != [] {
      var init := snapshot[..|snapshot| - 1];
      var last := snapshot[|snapshot| - 1];
      assert forall l :: l in init ==> l in snapshot;
      FireAllKeepsUsers(s, init, msg);
      assert last in snapshot;
      FireListenerKeepsUsers(FireAll(s, init, msg), last, msg);
    }
  }

  /** No run-time listener changes a user binding. */
  lemma FireListenerKeepsUsers(s: State, l: Listener, msg: Message)
    requires Fits(l, s.schedules)
    ensures FireListener(s, l, msg).users == s.users
  {
    match l
    case AwaitName(_, _) =>
    case AwaitPassword(_, _, _) =>
    case AwaitScheduleAdd(_, _) =>
    case AwaitEditFind(_, _) =>
    case AwaitEditFields(_, _, _) =>
    case AwaitAnnouncement(_, _) =>
  }

  /** Running the matching `onText` handlers never changes a user binding. */
  lemma {:induction false} RunMatchingKeepsUsers(s: State, cmds: seq<Command>, text: string, msg: Message)
    ensures RunMatching(s, cmds, text, msg).users == s.users
  {
    if cmds != [] {
      RunMatchingKeepsUsers(s, cmds[..|cmds| - 1], text, msg);
      RunKeepsUsers(RunMatching(s, cmds[..|cmds| - 1], text, msg), cmds[|cmds| - 1], msg);
    }
  }

  /** No `onText` handler changes a user binding. */
  lemma RunKeepsUsers(s: State, c: Command, msg: Message)
    ensures Run(s, c, msg).users == s.users
  {
    match c
    case ViewScheduleCmd =>
    case ViewMaterialsCmd =>
    case AnnouncementsCmd =>
    case AdminCmd =>
    case AddScheduleCmd =>
    case AddMaterialCmd =>
    case ViewMaterialsNewestCmd =>
    case ClearMaterialsCmd =>
    case AddAnnouncementCmd =>
    case EditScheduleCmd =>
    case BackCmd =>
  }

  /** An inbound message never changes a user binding: only the group buttons do. */
  lemma OnMessageKeepsUsers(s: State, msg: Message)
    requires Valid(s)
    ensures OnMessage(s, msg).users == s.users
  {
    var s1 := OnMaterial(s, msg);
    FireAllKeepsUsers(s1, s.listeners, msg);
    var s2 := FireAll(s1, s.listeners, msg);
    if Truthy(msg.text) {
      RunMatchingKeepsUsers(s2, Router, msg.text.value, msg);
    }
  }

  /** A button press keeps at most one binding per user. */
  lemma OnCallbackKeepsUnique(s: State, cb: Callback)
    requires UniqueIds(s.users)
    ensures UniqueIds(OnCallback(s, cb).users)
  {
    if EndsWith(cb.data, ChangeGroupSuffix) {
      UpsertKeepsUnique(s.users, cb.fromId, StripChangeGroup(cb.data));
    }
  }

  /* ---------- the credential check ---------- */

  /** A single listener turns admin mode on only as the password prompt with the right pair, for the /admin chat. */
  lemma FireListenerGrants(s: State, l: Listener, msg: Message)
    requires Fits(l, s.schedules) && !s.adminMode && FireListener(s, l, msg).adminMode
    ensures l.AwaitPassword? && Credentials(l.name, msg.text)
    ensures FireListener(s, l, msg).currentAdminChatId == Some(l.chat)
  {
  }

  /** No listener ever turns admin mode off. */
  lemma FireListenerKeepsAdmin(s: State, l: Listener, msg: Message)
    requires Fits(l, s.schedules) && s.adminMode
    ensures FireListener(s, l, msg).adminMode
  {
  }

  /** Within one snapshot, admin mode comes on only through a password prompt in it that got the right pair. */
  lemma {:induction false} FireAllGrants(s: State, snapshot: seq<Listener>, msg: Message)
    requires forall l :: l in snapshot ==> Fits(l, s.schedules)
    requires !s.adminMode && FireAll(s, snapshot, msg).adminMode
    ensures exists l :: l in snapshot && l.AwaitPassword? && Credentials(l.name, msg.text)
  {
    var init := snapshot[..|snapshot| - 1];
    var last := snapshot[|snapshot| - 1];
    assert forall l :: l in init ==> l in snapshot;
    assert last in snapshot;
    var mid := FireAll(s, init, msg);
    if mid.adminMode {
      FireAllGrants(s, init, msg);
    } else {
      FireListenerGrants(mid, last, msg);
    }
  }

  /** Within one snapshot, admin mode is never turned off. */
  lemma {:induction false} FireAllKeepsAdmin(s: State, snapshot: seq<Listener>, msg: Message)
    requires forall l :: l in snapshot ==> Fits(l, s.schedules)
    requires s.adminMode
    ensures FireAll(s, snapshot, msg).adminMode
  {
    if snapshot != [] {
      var init := snapshot[..|snapshot| - 1];
      assert forall l :: l in init ==> l in snapshot;
      assert snapshot[|snapshot| - 1] in snapshot;
      FireAllKeepsAdmin(s, init, msg);
      FireListenerKeepsAdmin(FireAll(s, init, msg), snapshot[|snapshot| - 1], msg);
    }
  }

  /** No text handler turns admin mode on, and only "Назад" turns it off. */
  lemma RunAdmin(s: State, c: Command, msg: Message)
    ensures Run(s, c, msg).adminMode ==> s.adminMode
    ensures s.adminMode && !Run(s, c, msg).adminMode ==> c == BackCmd
  {
  }

  /** A run of text handlers turns admin mode on never, and off only when "Назад" occurs in the text. */
  lemma {:induction false} RunMatchingAdmin(s: State, cmds: seq<Command>, text: string, msg: Message)
    ensures RunMatching(s, cmds, text, msg).adminMode ==> s.adminMode
    ensures s.adminMode && !RunMatching(s, cmds, text, msg).adminMode ==> BackCmd in cmds && Contains(text, BackPattern)
  {
    if cmds != [] {
      var init := cmds[..|cmds| - 1];
      RunMatchingAdmin(s, init, text, msg);
      RunAdmin(RunMatching(s, init, text, msg), cmds[|cmds| - 1], msg);
      assert forall c :: c in init ==> c in cmds;
    }
  }

  /**
   * Admin mode comes on during a message only when a pending password prompt
   * receives the fixed password as this message's text, having captured the
   * fixed name from the message before it.
   */
  lemma AdminOnlyByCredentials(s: State, msg: Message)
    requires Valid(s) && !s.adminMode && OnMessage(s, msg).adminMode
    ensures exists l :: l in s.listeners && l.AwaitPassword? && l.name == Some(AdminName)
    ensures msg.text == Some(AdminPassword)
  {
    var s1 := OnMaterial(s, msg);
    var s2 := FireAll(s1, s.listeners, msg);
    if Truthy(msg.text) {
      RunMatchingAdmin(s2, Router, msg.text.value, msg);
    }
    FireAllGrants(s1, s.listeners, msg);
  }

  /** Admin mode goes off during a message only when the text contains "Назад". */
  lemma AdminOffOnlyByBack(s: State, msg: Message)
    requires Valid(s) && s.adminMode && !OnMessage(s, msg).adminMode
    ensures Truthy(msg.text) && Contains(msg.text.value, BackPattern)
  {
    var s1 := OnMaterial(s, msg);
    FireAllKeepsAdmin(s1, s.listeners, msg);
    var s2 := FireAll(s1, s.listeners, msg);
    if Truthy(msg.text) {
      RunMatchingAdmin(s2, Router, msg.text.value, msg);
    }
  }

  /* ---------- prompts are not scoped to a chat ---------- */

  /** A text shorter than every registered pattern matches no text handler. */
  lemma {:induction false} ShortTextMatchesNothing(s: State, cmds: seq<Command>, text: string, msg: Message)
    requires |text| < 5
    ensures RunMatching(s, cmds, text, msg) == s
  {
    if cmds != [] {
      ShortTextMatchesNothing(s, cmds[..|cmds| - 1], text, msg);
      var p := PatternOf(cmds[|cmds| - 1]);
      assert |p| >= 5;
      assert !OccursAt(text, p, 0);
      assert !Contains(text, p);
    }
  }

  /**
   * The password prompt takes the next message from any chat: with admin
   * mode off and the prompt for `chat` pending after the right name, the
   * password typed in `other` makes `chat` the admin chat.
   */
  lemma PasswordFromAnyChat(s: State, id: nat, chat: ChatId, other: ChatId)
    requires Valid(s) && !s.adminMode && s.listeners == [AwaitPassword(id, chat, Some(AdminName))]
    ensures var r := OnMessage(s, Message(other, other, Some(AdminPassword), None, None, None));
      r.adminMode && r.currentAdminChatId == Some(chat)
  {
    var msg := Message(other, other, Some(AdminPassword), None, None, None);
    var s1 := OnMaterial(s, msg);
    assert s1 == s;
    var s2 := FireAll(s1, s.listeners, msg);
    assert s.listeners[..|s.listeners| - 1] == [];
    assert FireAll(s1, [], msg) == s;
    assert s2 == FireListener(s, s.listeners[0], msg);
    ShortTextMatchesNothing(s2, Router, AdminPassword, msg);
  }

  /* ---------- the button presses ---------- */

  /**
   * A group button binds the pressing user to the decoded group, keeps every
   * other user's binding, and keeps at most one binding per user.
   */
  lemma GroupChange(s: State, cb: Callback, other: ChatId)
    requires EndsWith(cb.data, ChangeGroupSuffix) && UniqueIds(s.users)
    ensures var r := OnCallback(s, cb);
      && FindUser(r.users, cb.fromId) == Some(UserBinding(cb.fromId, StripChangeGroup(cb.data)))
      && (other != cb.fromId ==> FindUser(r.users, other) == FindUser(s.users, other))
      && UniqueIds(r.users)
  {
    UpsertKeepsUnique(s.users, cb.fromId, StripChangeGroup(cb.data));
  }

  /**
   * Any `dnwmppk_group…` button arms the material prompt for its third field,
   * whoever presses it and whether admin mode is on or not; admin mode and
   * the admin chat stay as they were.
   */
  lemma MaterialButtonArms(s: State, cb: Callback)
    requires StartsWith(cb.data, MaterialTargetPrefix)
    ensures var r := OnCallback(s, cb);
      && r.waitingForMaterial && r.targetGroup == ThirdField(cb.data)
      && r.adminMode == s.adminMode && r.currentAdminChatId == s.currentAdminChatId
  {
    assert cb.data[0] == MaterialTargetPrefix[0];
    assert !StartsWith(cb.data, ClearGroupPrefix) by {
      assert ClearGroupPrefix[0] != cb.data[0];
    }
  }

  /* ---------- who receives what ---------- */

  /**
   * A stored material reaches every user bound to the target group, in its
   * shape (one message for text, a title and a file otherwise), reaches
   * nobody else, and the admin chat is told once.
   */
  lemma MaterialDelivery(s: State, msg: Message, uid: ChatId)
    requires MaterialActive(s, msg) && Stored(Classify(msg)) && UniqueIds(s.users)
    ensures var r := OnMaterial(s, msg);
      && |r.outbox| >= |s.outbox|
      && PayloadsTo(r.outbox[|s.outbox|..], uid)
         == (if BoundTo(s.users, uid, s.targetGroup) then Payloads(Classify(msg)) else [])
          + (if uid == msg.chatId then [Say(MaterialSentText(s.targetGroup))] else [])
  {
    var c := Classify(msg);
    var fan := FanOut(s.users, s.targetGroup, Payloads(c));
    var done := [Send(msg.chatId, Say(MaterialSentText(s.targetGroup)))];
    var r := OnMaterial(s, msg);
    assert r.outbox[|s.outbox|..] == fan + done;
    PayloadsToAppend(fan, done, uid);
    FanOutDelivers(s.users, s.targetGroup, Payloads(c), uid);
    assert done == Addressed(msg.chatId, [Say(MaterialSentText(s.targetGroup))]);
    PayloadsToAddressed(msg.chatId, [Say(MaterialSentText(s.targetGroup))], uid);
  }

  /**
   * An accepted announcement reaches every user with a binding exactly once,
   * and the admin chat gets the confirmation first.
   */
  lemma AnnouncementDelivery(s: State, l: Listener, msg: Message, uid: ChatId)
    requires l.AwaitAnnouncement? && msg.chatId == l.chat && s.adminMode && Truthy(msg.text) && UniqueIds(s.users)
    ensures var r := FireAnnouncement(s, l, msg);
      && |r.outbox| >= |s.outbox|
      && PayloadsTo(r.outbox[|s.outbox|..], uid)
         == (if uid == l.chat then [Say(AnnouncementSentText)] else [])
          + (if Known(s.users, uid) then [Say(AnnouncementText(msg.text.value))] else [])
  {
    var ack := [Send(l.chat, Say(AnnouncementSentText))];
    var all := Broadcast(s.users, Say(AnnouncementText(msg.text.value)));
    var r := FireAnnouncement(s, l, msg);
    assert r.outbox[|s.outbox|..] == ack + all;
    PayloadsToAppend(ack, all, uid);
    assert ack == Addressed(l.chat, [Say(AnnouncementSentText)]);
    PayloadsToAddressed(l.chat, [Say(AnnouncementSentText)], uid);
    BroadcastDelivers(s.users, Say(AnnouncementText(msg.text.value)), uid);
  }

  /* ---------- the schedule edit flow ---------- */

  /**
   * When the typed group and day are found, the lookup echoes the entry, arms
   * the field prompt for it, and changes nothing else.
   */
  lemma EditFindFound(s: State, l: Listener, msg: Message)
    requires l.AwaitEditFind? && msg.text.Some?
    requires FindSchedule(s.schedules, EditKey(msg.text.value).0, EditKey(msg.text.value).1, 0).Some?
    ensures var i := FindSchedule(s.schedules, EditKey(msg.text.value).0, EditKey(msg.text.value).1, 0).value;
      FireEditFind(s, l, msg)
      == s.(listeners := Without(s.listeners, l.id) + [AwaitEditFields(s.nextId, l.chat, i)], nextId := s.nextId + 1,
            outbox := s.outbox + [Send(l.chat, Say(CurrentScheduleText(s.schedules[i])))])
  {
  }

  /**
   * The two answers of the edit flow, typed as "g, d" and "t, su, lo" with no
   * field containing ", ": the first entry keyed (g, d) ends up with the new
   * time, subject and location and its own group and day, at the same position.
   */
  lemma EditFlow(s: State, l: Listener, g: string, d: string, t: string, su: string, lo: string)
    requires l.AwaitEditFind?
    requires forall f :: f in [g, d, t, su, lo] ==> !Contains(f, FieldSeparator)
    requires FindSchedule(s.schedules, Some(g), Some(d), 0).Some?
    ensures var i := FindSchedule(s.schedules, Some(g), Some(d), 0).value;
      var find := Message(l.chat, l.chat, Some(Join([g, d], FieldSeparator)), None, None, None);
      var s1 := FireEditFind(s, l, find);
      var l2 := AwaitEditFields(s.nextId, l.chat, i);
      var s2 := FireEditFields(s1, l2, Message(l.chat, l.chat, Some(Join([t, su, lo], FieldSeparator)), None, None, None));
      && l2 in s1.listeners
      && s2.schedules == s.schedules[i := ScheduleEntry(Some(g), Some(d), Some(t), Some(su), Some(lo))]
  {
    assert [g, d, t, su, lo][0] == g && [g, d, t, su, lo][1] == d;
    assert [g, d, t, su, lo][2] == t && [g, d, t, su, lo][3] == su && [g, d, t, su, lo][4] == lo;
    EditFindArms(s, l, g, d);
    var i := FindSchedule(s.schedules, Some(g), Some(d), 0).value;
    var s1 := FireEditFind(s, l, Message(l.chat, l.chat, Some(Join([g, d], FieldSeparator)), None, None, None));
    EditFieldsWrite(s1, AwaitEditFields(s.nextId, l.chat, i), t, su, lo);
  }

  /** The lookup answer "g, d" arms the field prompt for the first entry keyed (g, d), and writes nothing. */
  lemma EditFindArms(s: State, l: Listener, g: string, d: string)
    requires l.AwaitEditFind? && !Contains(g, FieldSeparator) && !Contains(d, FieldSeparator)
    requires FindSchedule(s.schedules, Some(g), Some(d), 0).Some?
    ensures var s1 := FireEditFind(s, l, Message(l.chat, l.chat, Some(Join([g, d], FieldSeparator)), None, None, None));
      && s1.schedules == s.schedules
      && AwaitEditFields(s.nextId, l.chat, FindSchedule(s.schedules, Some(g), Some(d), 0).value) in s1.listeners
  {
    var key := [g, d];
    assert forall k :: 0 <= k < |key| ==> !Contains(key[k], FieldSeparator);
    EditKeyFromFields(key);
  }

  /** The fields answer "t, su, lo" overwrites time, subject and location of the pending entry and nothing else. */
  lemma EditFieldsWrite(s: State, l: Listener, t: string, su: string, lo: string)
    requires l.AwaitEditFields? && l.entry < |s.schedules|
    requires !Contains(t, FieldSeparator) && !Contains(su, FieldSeparator) && !Contains(lo, FieldSeparator)
    ensures var e := s.schedules[l.entry];
      FireEditFields(s, l, Message(l.chat, l.chat, Some(Join([t, su, lo], FieldSeparator)), None, None, None)).schedules
        == s.schedules[l.entry := ScheduleEntry(e.group, e.day, Some(t), Some(su), Some(lo))]
  {
    var fields := [t, su, lo];
    assert forall k :: 0 <= k < |fields| ==> !Contains(fields[k], FieldSeparator);
    var e := s.schedules[l.entry];
    RetimedFromFields(e, fields);
    var r := FireEditFields(s, l, Message(l.chat, l.chat, Some(Join(fields, FieldSeparator)), None, None, None));
    assert r.schedules[l.entry] == ScheduleEntry(e.group, e.day, Some(t), Some(su), Some(lo));
    assert r.schedules == s.schedules[l.entry := ScheduleEntry(e.group, e.day, Some(t), Some(su), Some(lo))];
  }
}
