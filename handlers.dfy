/**
 * The bot process: the module-level flags, the store, the registered
 * listeners and the outbox as the fields of one object, and one method per
 * handler that updates them in place. Each method is proved to take the
 * object from the state `Model()` to the state the matching function of
 * module Machine gives, so every property proved there holds of the methods.
 */
module Handlers {
  import opened Wrappers
  import opened Strings
  import opened Records
  import opened Replies
  import opened Parse
  import opened Materials
  import opened Store
  import opened Aggregates
  import opened Delivery
  import opened Machine
  import Properties

  /** The schedule reply, built the way the `forEach` at index.js:107-110 builds it. */
  method ScheduleReply(group: string, entries: seq<ScheduleEntry>) returns (text: string)
    ensures text == ScheduleText(group, entries)
  {
    text := ScheduleHeader(group);
    var i := 0;
    while i < |entries|
      invariant 0 <= i <= |entries|
      invariant text == ScheduleText(group, entries[..i])
    {
      ScheduleTextSnoc(group, entries, i);
      text := text + EntryText(entries[i]);
      i := i + 1;
    }
    assert entries[..|entries|] == entries;
  }

  /** The statistics message, built the way the `forEach` at index.js:597-600 builds it. */
  method StatsReply(stats: seq<GroupCount>) returns (text: string)
    ensures text == StatsText(stats)
  {
    text := StatsText([]);
    var i := 0;
    while i < |stats|
      invariant 0 <= i <= |stats|
      invariant text == StatsText(stats[..i])
    {
      assert stats[..i + 1][..i] == stats[..i];
      text := text + "Группа " + stats[i].group + ": " + Decimal(stats[i].count) + " участников\n";
      i := i + 1;
    }
    assert stats[..|stats|] == stats;
  }

  /** The sends of "Посмотреть материалы", one per material, as the `for … of` at index.js:153-160 makes them. */
  method ListingSends(uid: ChatId, ms: seq<Material>) returns (sent: seq<Send>)
    ensures sent == Listing(uid, ms)
  {
    sent := [];
    var i := 0;
    while i < |ms|
      invariant 0 <= i <= |ms|
      invariant sent == Listing(uid, ms[..i])
    {
      assert ms[..i + 1][..i] == ms[..i];
      sent := sent + [Send(uid, ListingPayload(ms[i]))];
      i := i + 1;
    }
    assert ms[..|ms|] == ms;
  }

  /** The title lines of the second "Посмотреть материалы", as the `for … of` at index.js:460-473 makes them. */
  method TitleSends(chat: ChatId, ms: seq<Material>) returns (sent: seq<Send>)
    ensures sent == TitleListing(chat, ms)
  {
    sent := [];
    var i := 0;
    while i < |ms|
      invariant 0 <= i <= |ms|
      invariant sent == TitleListing(chat, ms[..i])
    {
      assert ms[..i + 1][..i] == ms[..i];
      sent := sent + [Send(chat, Say(TitleLine(ms[i])))];
      i := i + 1;
    }
    assert ms[..|ms|] == ms;
  }

  /** A material's sends to the users bound to `group`, as the `forEach` at index.js:424-437 makes them. */
  method FanOutSends(users: seq<UserBinding>, group: Option<string>, ps: seq<Payload>) returns (sent: seq<Send>)
    ensures sent == FanOut(users, group, ps)
  {
    sent := [];
    var i := 0;
    while i < |users|
      invariant 0 <= i <= |users|
      invariant sent == FanOut(users[..i], group, ps)
    {
      assert users[..i + 1][..i] == users[..i];
      if Some(users[i].group) == group {
        sent := sent + Addressed(users[i].userId, ps);
      }
      i := i + 1;
    }
    assert users[..|users|] == users;
  }

  /** An announcement's sends to every bound user, as the `forEach` at index.js:512-514 makes them. */
  method BroadcastSends(users: seq<UserBinding>, p: Payload) returns (sent: seq<Send>)
    ensures sent == Broadcast(users, p)
  {
    sent := [];
    var i := 0;
    while i < |users|
      invariant 0 <= i <= |users|
      invariant sent == Broadcast(users[..i], p)
    {
      assert users[..i + 1][..i] == users[..i];
      sent := sent + [Send(users[i].userId, p)];
      i := i + 1;
    }
    assert users[..|users|] == users;
  }

  class Bot {
    var adminMode: bool
    var currentAdminChatId: Option<ChatId>
    var waitingForMaterial: bool
    var targetGroup: Option<string>
    var schedules: seq<ScheduleEntry>
    var materials: seq<Material>
    var users: seq<UserBinding>
    var announcements: seq<Announcement>
    var listeners: seq<Listener>
    var nextId: nat
    var outbox: seq<Send>

    /** The object's fields as one value of the state machine. */
    function Model(): State
      reads this
    {
      State(adminMode, currentAdminChatId, waitingForMaterial, targetGroup, schedules, materials, users,
            announcements, listeners, nextId, outbox)
    }

    predicate Valid()
      reads this
    {
      Machine.Valid(Model())
    }

    /** Start-up over an existing store (index.js:56-59). */
    constructor (schedules0: seq<ScheduleEntry>, materials0: seq<Material>, users0: seq<UserBinding>,
                 announcements0: seq<Announcement>)
      ensures Model() == Init(schedules0, materials0, users0, announcements0) && Valid()
    {
      adminMode := false;
      currentAdminChatId := None;
      waitingForMaterial := false;
      targetGroup := None;
      schedules := schedules0;
      materials := materials0;
      users := users0;
      announcements := announcements0;
      listeners := [];
      nextId := 0;
      outbox := [];
    }

    /* ---------- primitives ---------- */

    /** `bot.sendMessage(to, text)`. */
    method SendText(to: ChatId, text: string)
      modifies this
      ensures Model() == Machine.Reply(old(Model()), to, text)
    {
      outbox := outbox + [Send(to, Say(text))];
    }

    /** `bot.on('message', l)` or `bot.once('message', l)`. */
    method AddListener(l: Listener)
      requires l.id == nextId
      modifies this
      ensures Model() == Register(old(Model()), l)
    {
      listeners := listeners + [l];
      nextId := nextId + 1;
    }

    /** `bot.removeListener('message', l)`, and what `once` does before calling its listener. */
    method RemoveListener(id: nat)
      modifies this
      ensures Model() == Unregister(old(Model()), id)
    {
      listeners := Without(listeners, id);
    }

    /* ---------- text handlers ---------- */

    /** "Посмотреть расписание" (index.js:77-122). */
    method ViewScheduleHandler(uid: ChatId)
      modifies this
      ensures Model() == ViewSchedule(old(Model()), uid)
    {
      var user := FindUser(users, uid);
      if user.None? {
        SendText(uid, SetGroupFirstText);
      } else {
        var entries := SchedulesOf(schedules, user.value.group);
        if entries == [] {
          SendText(uid, NoScheduleText);
        } else {
          var text := ScheduleReply(user.value.group, entries);
          SendText(uid, text);
        }
      }
    }

    /** "Посмотреть материалы", the first registration (index.js:125-162). */
    method ViewMaterialsHandler(uid: ChatId)
      modifies this
      ensures Model() == ViewMaterials(old(Model()), uid)
    {
      var user := FindUser(users, uid);
      if user.None? {
        SendText(uid, SetGroupFirstText);
      } else {
        var ms := MaterialsOf(materials, user.value.group);
        if ms == [] {
          SendText(uid, NoMaterialsText);
        } else {
          var sent := ListingSends(uid, ms);
          outbox := outbox + sent;
        }
      }
    }

    /** "Посмотреть материалы", the second registration (index.js:446-475). */
    method ViewMaterialsNewestHandler(chat: ChatId)
      modifies this
      ensures Model() == ViewMaterialsNewest(old(Model()), chat)
    {
      var user := FindUser(users, chat);
      if user.None? || user.value.group == "" {
        SendText(chat, SetGroupByGroupText);
      } else {
        var ms := MaterialsOf(materials, user.value.group);
        if ms == [] {
          SendText(chat, NoGroupMaterialsText);
        } else {
          var sent := TitleSends(chat, LatestFirst(ms));
          outbox := outbox + sent;
        }
      }
    }

    /** "/announcements" (index.js:263-273). */
    method AnnouncementsHandler(chat: ChatId)
      modifies this
      ensures Model() == ListAnnouncements(old(Model()), chat)
    {
      var sorted := SortByDateDesc(announcements);
      if sorted == [] {
        SendText(chat, NoAnnouncementsText);
      } else {
        outbox := outbox + [Send(chat, Digest(sorted))];
      }
    }

    /** "/admin" (index.js:306-309). */
    method AdminHandler(chat: ChatId)
      modifies this
      ensures Model() == AdminCommand(old(Model()), chat)
    {
      SendText(chat, AskNameText);
      AddListener(AwaitName(nextId, chat));
    }

    /** "Добавить расписание" (index.js:336-349). */
    method AddScheduleHandler(chat: ChatId)
      modifies this
      ensures Model() == AddSchedule(old(Model()), chat)
    {
      if adminMode && currentAdminChatId == Some(chat) {
        SendText(chat, AskScheduleText);
        AddListener(AwaitScheduleAdd(nextId, chat));
      } else {
        SendText(chat, NoAccessText);
      }
    }

    /** "Добавить материал" (index.js:352-367). */
    method AddMaterialHandler(chat: ChatId)
      modifies this
      ensures Model() == AddMaterial(old(Model()), chat)
    {
      if adminMode && currentAdminChatId == Some(chat) {
        outbox := outbox + [Send(chat, Choice(ChooseMaterialGroupText, MaterialButtons))];
      } else {
        SendText(chat, NoAccessText);
      }
    }

    /** "Очистить материалы" (index.js:478-493). */
    method ClearMaterialsHandler(chat: ChatId)
      modifies this
      ensures Model() == ClearMaterials(old(Model()), chat)
    {
      if adminMode && currentAdminChatId == Some(chat) {
        outbox := outbox + [Send(chat, Choice(ChooseClearGroupText, ClearButtons))];
      } else {
        SendText(chat, NoAccessText);
      }
    }

    /** "Добавить объявление" (index.js:496-531). */
    method AddAnnouncementHandler(chat: ChatId)
      modifies this
      ensures Model() == AddAnnouncement(old(Model()), chat)
    {
      if adminMode && currentAdminChatId == Some(chat) {
        SendText(chat, AskAnnouncementText);
        AddListener(AwaitAnnouncement(nextId, chat));
      } else {
        SendText(chat, NoAccessText);
      }
    }

    /** "Редактировать расписание" (index.js:535-565). */
    method EditScheduleHandler(chat: ChatId)
      modifies this
      ensures Model() == EditSchedule(old(Model()), chat)
    {
      if adminMode && currentAdminChatId == Some(chat) {
        SendText(chat, AskEditKeyText);
        AddListener(AwaitEditFind(nextId, chat));
      } else {
        SendText(chat, NoAccessText);
      }
    }

    /** "Назад" (index.js:568-585). */
    method BackHandler(chat: ChatId)
      modifies this
      ensures Model() == Back(old(Model()), chat)
    {
      if adminMode && currentAdminChatId == Some(chat) {
        adminMode := false;
        currentAdminChatId := None;
        SendText(chat, LoggedOutText);
      } else {
        SendText(chat, NoAccessText);
      }
    }

    /** "Просмотреть статистику" (index.js:588-610). */
    method StatisticsHandler(chat: ChatId)
      modifies this
      ensures Model() == Statistics(old(Model()), chat)
    {
      if adminMode && currentAdminChatId == Some(chat) {
        var text := StatsReply(GroupStats(users));
        SendText(chat, text);
      } else {
        SendText(chat, NoAccessText);
      }
    }

    /** Runs the handler registered for `c`. */
    method Execute(c: Command, msg: Message)
      modifies this
      ensures Model() == Run(old(Model()), c, msg)
    {
      match c
      case ViewScheduleCmd => ViewScheduleHandler(msg.fromId);
      case ViewMaterialsCmd => ViewMaterialsHandler(msg.fromId);
      case AnnouncementsCmd => AnnouncementsHandler(msg.chatId);
      case AdminCmd => AdminHandler(msg.chatId);
      case AddScheduleCmd => AddScheduleHandler(msg.chatId);
      case AddMaterialCmd => AddMaterialHandler(msg.chatId);
      case ViewMaterialsNewestCmd => ViewMaterialsNewestHandler(msg.chatId);
      case ClearMaterialsCmd => ClearMaterialsHandler(msg.chatId);
      case AddAnnouncementCmd => AddAnnouncementHandler(msg.chatId);
      case EditScheduleCmd => EditScheduleHandler(msg.chatId);
      case BackCmd => BackHandler(msg.chatId);
    }

    /** Every registered pattern occurring in the text, in registration order. */
    method TextHandlers(msg: Message)
      modifies this
      ensures Model() == OnText(old(Model()), msg)
    {
      if Truthy(msg.text) {
        var text := msg.text.value;
        ghost var s0 := Model();
        var i := 0;
        while i < |Router|
          invariant 0 <= i <= |Router|
          invariant Model() == RunMatching(s0, Router[..i], text, msg)
        {
          assert Router[..i + 1][..i] == Router[..i];
          if Contains(text, PatternOf(Router[i])) {
            Execute(Router[i], msg);
          }
          i := i + 1;
        }
        assert Router[..|Router|] == Router;
      }
    }

    /* ---------- run-time listeners ---------- */

    /** The name prompt (index.js:309-311). */
    method NameListener(l: Listener, msg: Message)
      requires l.AwaitName?
      modifies this
      ensures Model() == FireName(old(Model()), l, msg)
    {
      RemoveListener(l.id);
      SendText(l.chat, AskPasswordText);
      AddListener(AwaitPassword(nextId, l.chat, msg.text));
    }

    /** The password prompt (index.js:312-331). */
    method PasswordListener(l: Listener, msg: Message)
      requires l.AwaitPassword?
      modifies this
      ensures Model() == FirePassword(old(Model()), l, msg)
    {
      RemoveListener(l.id);
      if l.name == Some(AdminName) && msg.text == Some(AdminPassword) {
        adminMode := true;
        currentAdminChatId := Some(l.chat);
        SendText(l.chat, WelcomeAdminText);
      } else {
        SendText(l.chat, WrongCredentialsText);
      }
    }

    /** The schedule-add prompt (index.js:340-345). */
    method ScheduleAddListener(l: Listener, msg: Message)
      requires l.AwaitScheduleAdd?
      modifies this
      ensures Model() == FireScheduleAdd(old(Model()), l, msg)
    {
      RemoveListener(l.id);
      if msg.text.Some? {
        schedules := schedules + [ScheduleFromText(msg.text.value)];
        SendText(l.chat, ScheduleAddedText);
      }
    }

    /** The edit flow's lookup (index.js:539-549). */
    method EditFindListener(l: Listener, msg: Message)
      requires l.AwaitEditFind?
      modifies this
      ensures Model() == FireEditFind(old(Model()), l, msg)
    {
      RemoveListener(l.id);
      if msg.text.Some? {
        var key := EditKey(msg.text.value);
        var found := FindSchedule(schedules, key.0, key.1, 0);
        if found.None? {
          SendText(l.chat, ScheduleNotFoundText);
        } else {
          SendText(l.chat, CurrentScheduleText(schedules[found.value]));
          AddListener(AwaitEditFields(nextId, l.chat, found.value));
        }
      }
    }

    /** The edit flow's second answer, written over the found record (index.js:550-560). */
    method EditFieldsListener(l: Listener, msg: Message)
      requires l.AwaitEditFields? && l.entry < |schedules|
      modifies this
      ensures Model() == FireEditFields(old(Model()), l, msg)
    {
      RemoveListener(l.id);
      if msg.text.Some? {
        schedules := schedules[l.entry := Retimed(schedules[l.entry], msg.text.value)];
        SendText(l.chat, ScheduleUpdatedText);
      }
    }

    /** The announcement listener (index.js:502-525). */
    method AnnouncementListener(l: Listener, msg: Message)
      requires l.AwaitAnnouncement?
      modifies this
      ensures Model() == FireAnnouncement(old(Model()), l, msg)
    {
      if msg.chatId == l.chat && adminMode {
        if !Truthy(msg.text) {
          SendText(l.chat, EmptyAnnouncementText);
        } else {
          SendText(l.chat, AnnouncementSentText);
          var sent := BroadcastSends(users, Say(AnnouncementText(msg.text.value)));
          outbox := outbox + sent;
          RemoveListener(l.id);
        }
      }
    }

    /** Runs one registered listener. */
    method Fire(l: Listener, msg: Message)
      requires Fits(l, schedules)
      modifies this
      ensures Model() == FireListener(old(Model()), l, msg)
    {
      match l
      case AwaitName(_, _) => NameListener(l, msg);
      case AwaitPassword(_, _, _) => PasswordListener(l, msg);
      case AwaitScheduleAdd(_, _) => ScheduleAddListener(l, msg);
      case AwaitEditFind(_, _) => EditFindListener(l, msg);
      case AwaitEditFields(_, _, _) => EditFieldsListener(l, msg);
      case AwaitAnnouncement(_, _) => AnnouncementListener(l, msg);
    }

    /* ---------- the material handler ---------- */

    /** Material intake, classification and fan-out (index.js:392-443). */
    method MaterialHandler(msg: Message)
      modifies this
      ensures Model() == OnMaterial(old(Model()), msg)
    {
      if waitingForMaterial && adminMode && currentAdminChatId == Some(msg.chatId) {
        var c := Classify(msg);
        if c.Unsupported? {
          SendText(msg.chatId, UnsupportedText);
        } else if !c.EmptyPhoto? {
          materials := materials + [MaterialOf(c, targetGroup)];
          var sent := FanOutSends(users, targetGroup, Payloads(c));
          outbox := outbox + sent;
          SendText(msg.chatId, MaterialSentText(targetGroup));
          waitingForMaterial := false;
          targetGroup := None;
        }
      }
    }

    /* ---------- events ---------- */

    /**
     * One inbound message: the material handler, then the listeners registered
     * when the message arrived, in order, then the text handlers.
     */
    method HandleMessage(msg: Message)
      requires Valid()
      modifies this
      ensures Model() == OnMessage(old(Model()), msg) && Valid()
    {
      ghost var s0 := Model();
      var snapshot := listeners;
      MaterialHandler(msg);
      FireSnapshot(snapshot, msg);
      TextHandlers(msg);
      Properties.OnMessageValid(s0, msg);
    }

    /** The `message` listeners registered at the time the message arrived, in registration order. */
    method FireSnapshot(snapshot: seq<Listener>, msg: Message)
      requires forall l :: l in snapshot ==> Fits(l, schedules)
      modifies this
      ensures Model() == FireAll(old(Model()), snapshot, msg)
    {
      ghost var s1 := Model();
      var i := 0;
      while i < |snapshot|
        invariant 0 <= i <= |snapshot|
        invariant Model() == FireAll(s1, snapshot[..i], msg)
      {
        assert snapshot[..i + 1][..i] == snapshot[..i];
        assert forall l :: l in snapshot[..i] ==> l in snapshot;
        assert snapshot[i] in snapshot;
        Fire(snapshot[i], msg);
        i := i + 1;
      }
      assert snapshot[..|snapshot|] == snapshot;
    }

    /** The first `callback_query` handler (index.js:224-260). */
    method UserCallbackHandler(cb: Callback)
      modifies this
      ensures Model() == OnUserCallback(old(Model()), cb)
    {
      var data := cb.data;
      if EndsWith(data, ChangeGroupSuffix) {
        var group := StripChangeGroup(data);
        users := Upsert(users, cb.fromId, group);
        SendText(cb.chatId, GroupChangedText(group));
      }
      if data == BackToMenuData {
        SendText(cb.chatId, MenuText);
      }
      if StartsWith(data, MaterialTargetPrefix) {
        targetGroup := ThirdField(data);
        waitingForMaterial := true;
        SendText(cb.chatId, MaterialPromptText(targetGroup));
      }
    }

    /** The second `callback_query` handler (index.js:370-389). */
    method AdminCallbackHandler(cb: Callback)
      modifies this
      ensures Model() == OnAdminCallback(old(Model()), cb)
    {
      if adminMode && currentAdminChatId == Some(cb.chatId) {
        if StartsWith(cb.data, AdminMaterialTargetPrefix) {
          targetGroup := ThirdField(cb.data);
          SendText(cb.chatId, AdminMaterialPromptText(targetGroup));
          waitingForMaterial := true;
        } else if StartsWith(cb.data, ClearGroupPrefix) {
          var group := ThirdField(cb.data);
          materials := ClearGroup(materials, group);
          SendText(cb.chatId, MaterialsClearedText(group));
        }
      }
    }

    /** One button press: both callback handlers, in registration order. */
    method HandleCallback(cb: Callback)
      requires Valid()
      modifies this
      ensures Model() == OnCallback(old(Model()), cb) && Valid()
    {
      ghost var s0 := Model();
      UserCallbackHandler(cb);
      AdminCallbackHandler(cb);
      Properties.OnCallbackValid(s0, cb);
    }
  }
}
