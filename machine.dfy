/**
 * The bot's conversation and admin state machine as pure functions: the
 * process-wide flags, the store, the outbox and the `message` listeners
 * registered at run time form one `State`, and each handler of index.js is a
 * function from the state and the event to the next state.
 *
 * Events are handled to completion one after another. For an inbound message
 * the order is the library's: first every `message` listener (the material
 * handler registered at start-up, then the run-time listeners in the order
 * they were registered, over a snapshot taken when the message arrives), then
 * every `onText` handler whose pattern occurs in the text, in registration
 * order. For a button press both `callback_query` handlers run, in order.
 */
module Machine {
  import opened Wrappers
  import opened Strings
  import opened Records
  import opened Replies
  import opened Parse
  import opened Materials
  import opened Store
  import opened Aggregates
  import opened Delivery

  /* ---------- the router's table ---------- */

  const ViewSchedulePattern: string := "Посмотреть расписание"
  const ViewMaterialsPattern: string := "Посмотреть материалы"
  const AnnouncementsPattern: string := "/announcements"
  const AdminPattern: string := "/admin"
  const AddSchedulePattern: string := "Добавить расписание"
  const AddMaterialPattern: string := "Добавить материал"
  const ClearMaterialsPattern: string := "Очистить материалы"
  const AddAnnouncementPattern: string := "Добавить объявление"
  const EditSchedulePattern: string := "Редактировать расписание"
  const BackPattern: string := "Назад"

  const BackToMenuData: string := "back_to_menu"
  /** The first callback handler tests this prefix, without a trailing underscore. */
  const MaterialTargetPrefix: string := "dnwmppk_group"
  /** The admin-only callback handler tests this one. */
  const AdminMaterialTargetPrefix: string := "dnwmppk_group_"
  const ClearGroupPrefix: string := "clear_group_"

  /** The callback data of the group-selection buttons (index.js:216-218); the groups are written in Cyrillic. */
  const GroupButtons: seq<string> := ["11Т_changeGroup", "21Т_changeGroup", "31Т_changeGroup"]
  /** The group codes those buttons bind. */
  const Groups: seq<string> := ["11Т", "21Т", "31Т"]
  /**
   * The callback data of the material-target buttons (index.js:358-360): the
   * first group is written with a Latin T, unlike the group buttons; see Findings.
   */
  const MaterialButtons: seq<string> := ["dnwmppk_group_11T", "dnwmppk_group_21Т", "dnwmppk_group_31Т"]
  /** The callback data of the clear buttons (index.js:484-486), with the same Latin T. */
  const ClearButtons: seq<string> := ["clear_group_11T", "clear_group_21Т", "clear_group_31Т"]

  /* ---------- state ---------- */

  /**
   * A `message` listener added at run time. The id tells apart two listeners
   * that are otherwise equal, so that removing one removes exactly that one.
   */
  datatype Listener =
    | AwaitName(id: nat, chat: ChatId)                           // the /admin name prompt
    | AwaitPassword(id: nat, chat: ChatId, name: Option<string>)  // the password prompt, with the captured name
    | AwaitScheduleAdd(id: nat, chat: ChatId)                    // "Добавить расписание"
    | AwaitEditFind(id: nat, chat: ChatId)                       // "Редактировать расписание", first answer
    | AwaitEditFields(id: nat, chat: ChatId, entry: nat)         // its second answer, with the found entry's position
    | AwaitAnnouncement(id: nat, chat: ChatId)                   // "Добавить объявление"; stays until it acts

  datatype State = State(
    adminMode: bool,
    currentAdminChatId: Option<ChatId>,
    waitingForMaterial: bool,
    targetGroup: Option<string>,
    schedules: seq<ScheduleEntry>,
    materials: seq<Material>,
    users: seq<UserBinding>,
    announcements: seq<Announcement>,
    listeners: seq<Listener>,
    nextId: nat,
    outbox: seq<Send>)

  /** A listener that refers to a Schedule entry refers to one that exists. */
  predicate Fits(l: Listener, schedules: seq<ScheduleEntry>) {
    l.AwaitEditFields? ==> l.entry < |schedules|
  }

  predicate IdsDistinct(ls: seq<Listener>) {
    forall i, j :: 0 <= i < j < |ls| ==> ls[i].id != ls[j].id
  }

  /**
   * The invariant every handler keeps: admin mode and the admin chat are set
   * and cleared together; no material target is kept once the material prompt
   * is off; listener ids are distinct and below the next id; the edit flow's
   * pending entry exists.
   */
  predicate Valid(s: State) {
    && (s.adminMode <==> s.currentAdminChatId.Some?)
    && (!s.waitingForMaterial ==> s.targetGroup.None?)
    && ListenersOk(s.listeners, s.nextId, s.schedules)
  }

  /** Listener ids are distinct and below `nextId`, and every listener fits the schedules. */
  predicate ListenersOk(ls: seq<Listener>, nextId: nat, schedules: seq<ScheduleEntry>) {
    && (forall l :: l in ls ==> l.id < nextId && Fits(l, schedules))
    && IdsDistinct(ls)
  }

  /** The state at start-up over an existing store: no admin, no prompt, no listener. */
  function Init(schedules: seq<ScheduleEntry>, materials: seq<Material>, users: seq<UserBinding>,
                announcements: seq<Announcement>): (s: State)
    ensures Valid(s) && !s.adminMode && !s.waitingForMaterial && s.listeners == [] && s.outbox == []
  {
    State(false, None, false, None, schedules, materials, users, announcements, [], 0, [])
  }

  /** The gate of every admin button: admin mode is on and the message comes from the admin chat. */
  predicate Privileged(s: State, chat: ChatId) {
    s.adminMode && s.currentAdminChatId == Some(chat)
  }

  /** One text message appended to the outbox. */
  function Reply(s: State, to: ChatId, text: string): State {
    s.(outbox := s.outbox + [Send(to, Say(text))])
  }

  /** The refusal of an admin button: the no-access reply and nothing else. */
  function Denied(s: State, chat: ChatId): State {
    Reply(s, chat, NoAccessText)
  }

  /** `bot.on('message', l)` / `bot.once('message', l)`: `l` is listened to from the next message on. */
  function Register(s: State, l: Listener): (r: State)
    requires l.id == s.nextId
  {
    s.(listeners := s.listeners + [l], nextId := s.nextId + 1)
  }

  /** The listeners without the one of id `id`. */
  function Without(ls: seq<Listener>, id: nat): (r: seq<Listener>)
    ensures forall l :: l in r <==> l in ls && l.id != id
    ensures IdsDistinct(ls) ==> IdsDistinct(r)
  {
    if ls == [] then []
    else
      var rest := Without(ls[1..], id);
      if ls[0].id == id then rest
      else
        assert forall l :: l in rest ==> l in ls[1..];
        assert IdsDistinct(ls) ==> forall l :: l in ls[1..] ==> l.id != ls[0].id;
        [ls[0]] + rest
  }

  /** `removeListener`, and what `once` does before it calls its listener. */
  function Unregister(s: State, id: nat): State {
    s.(listeners := Without(s.listeners, id))
  }

  /** Only the outbox differs, by `sends` appended. */
  predicate OnlySent(s: State, r: State, sends: seq<Send>) {
    r == s.(outbox := s.outbox + sends)
  }

  /* ---------- text handlers ---------- */

  /**
   * "Посмотреть расписание" (index.js:77-122): the sender gets one message:
   * the set-your-group reply when it has no binding, the not-found reply when
   * its group has no entry, otherwise the entries of its group.
   */
  function ViewSchedule(s: State, uid: ChatId): (r: State)
    ensures FindUser(s.users, uid).None? ==> OnlySent(s, r, [Send(uid, Say(SetGroupFirstText))])
    ensures FindUser(s.users, uid).Some? ==>
      var g := FindUser(s.users, uid).value.group;
      OnlySent(s, r, [Send(uid, Say(if SchedulesOf(s.schedules, g) == [] then NoScheduleText
                                    else ScheduleText(g, SchedulesOf(s.schedules, g))))])
  {
    match FindUser(s.users, uid)
    case None => Reply(s, uid, SetGroupFirstText)
    case Some(u) =>
      var entries := SchedulesOf(s.schedules, u.group);
      if entries == [] then Reply(s, uid, NoScheduleText) else Reply(s, uid, ScheduleText(u.group, entries))
  }

  /**
   * "Посмотреть материалы", the first registration (index.js:125-162): the
   * set-your-group reply, the no-materials reply, or one send per material of
   * the sender's group.
   */
  function ViewMaterials(s: State, uid: ChatId): (r: State)
    ensures FindUser(s.users, uid).None? ==> OnlySent(s, r, [Send(uid, Say(SetGroupFirstText))])
    ensures FindUser(s.users, uid).Some? ==>
      var ms := MaterialsOf(s.materials, FindUser(s.users, uid).value.group);
      OnlySent(s, r, if ms == [] then [Send(uid, Say(NoMaterialsText))] else Listing(uid, ms))
  {
    match FindUser(s.users, uid)
    case None => Reply(s, uid, SetGroupFirstText)
    case Some(u) =>
      var ms := MaterialsOf(s.materials, u.group);
      if ms == [] then Reply(s, uid, NoMaterialsText) else s.(outbox := s.outbox + Listing(uid, ms))
  }

  /**
   * "Посмотреть материалы", the second registration (index.js:446-475): looks
   * the chat up as a user id; the set-your-group reply when there is no
   * binding or its group is empty, the no-materials reply, otherwise one title
   * line per material of the group, newest first.
   */
  function ViewMaterialsNewest(s: State, chat: ChatId): (r: State)
    ensures FindUser(s.users, chat).None? || FindUser(s.users, chat).value.group == "" ==>
      OnlySent(s, r, [Send(chat, Say(SetGroupByGroupText))])
    ensures FindUser(s.users, chat).Some? && FindUser(s.users, chat).value.group != "" ==>
      var ms := MaterialsOf(s.materials, FindUser(s.users, chat).value.group);
      OnlySent(s, r, if ms == [] then [Send(chat, Say(NoGroupMaterialsText))] else TitleListing(chat, LatestFirst(ms)))
  {
    match FindUser(s.users, chat)
    case None => Reply(s, chat, SetGroupByGroupText)
    case Some(u) =>
      if u.group == "" then Reply(s, chat, SetGroupByGroupText)
      else
        var ms := MaterialsOf(s.materials, u.group);
        if ms == [] then Reply(s, chat, NoGroupMaterialsText)
        else s.(outbox := s.outbox + TitleListing(chat, LatestFirst(ms)))
  }

  /** "/announcements" (index.js:263-273): the no-announcements reply, or all of them newest first. */
  function ListAnnouncements(s: State, chat: ChatId): (r: State)
    ensures s.announcements == [] ==> OnlySent(s, r, [Send(chat, Say(NoAnnouncementsText))])
    ensures s.announcements != [] ==> exists items ::
      && OnlySent(s, r, [Send(chat, Digest(items))])
      && multiset(items) == multiset(s.announcements) && NewestFirst(items)
  {
    var sorted := SortByDateDesc(s.announcements);
    SortIsNewestFirst(s.announcements);
    if sorted == [] then Reply(s, chat, NoAnnouncementsText)
    else s.(outbox := s.outbox + [Send(chat, Digest(sorted))])
  }

  /** "/admin" (index.js:306-309): asks for the name and arms the name prompt, with no check at all. */
  function AdminCommand(s: State, chat: ChatId): (r: State)
    ensures r.listeners == s.listeners + [AwaitName(s.nextId, chat)]
    ensures r.outbox == s.outbox + [Send(chat, Say(AskNameText))]
    ensures r == s.(listeners := r.listeners, nextId := s.nextId + 1, outbox := r.outbox)
  {
    Register(Reply(s, chat, AskNameText), AwaitName(s.nextId, chat))
  }

  /** "Добавить расписание" (index.js:336-349): behind the gate, asks for the entry and arms its prompt. */
  function AddSchedule(s: State, chat: ChatId): (r: State)
    ensures !Privileged(s, chat) ==> r == Denied(s, chat)
    ensures Privileged(s, chat) ==>
      r == s.(listeners := s.listeners + [AwaitScheduleAdd(s.nextId, chat)], nextId := s.nextId + 1,
              outbox := s.outbox + [Send(chat, Say(AskScheduleText))])
  {
    if Privileged(s, chat) then Register(Reply(s, chat, AskScheduleText), AwaitScheduleAdd(s.nextId, chat))
    else Denied(s, chat)
  }

  /** "Добавить материал" (index.js:352-367): behind the gate, offers the group buttons; nothing is armed yet. */
  function AddMaterial(s: State, chat: ChatId): (r: State)
    ensures !Privileged(s, chat) ==> r == Denied(s, chat)
    ensures Privileged(s, chat) ==> OnlySent(s, r, [Send(chat, Choice(ChooseMaterialGroupText, MaterialButtons))])
  {
    if Privileged(s, chat) then s.(outbox := s.outbox + [Send(chat, Choice(ChooseMaterialGroupText, MaterialButtons))])
    else Denied(s, chat)
  }

  /** "Очистить материалы" (index.js:478-493): behind the gate, offers the group buttons. */
  function ClearMaterials(s: State, chat: ChatId): (r: State)
    ensures !Privileged(s, chat) ==> r == Denied(s, chat)
    ensures Privileged(s, chat) ==> OnlySent(s, r, [Send(chat, Choice(ChooseClearGroupText, ClearButtons))])
  {
    if Privileged(s, chat) then s.(outbox := s.outbox + [Send(chat, Choice(ChooseClearGroupText, ClearButtons))])
    else Denied(s, chat)
  }

  /** "Добавить объявление" (index.js:496-500, 528-531): behind the gate, asks for the text and adds the listener. */
  function AddAnnouncement(s: State, chat: ChatId): (r: State)
    ensures !Privileged(s, chat) ==> r == Denied(s, chat)
    ensures Privileged(s, chat) ==>
      r == s.(listeners := s.listeners + [AwaitAnnouncement(s.nextId, chat)], nextId := s.nextId + 1,
              outbox := s.outbox + [Send(chat, Say(AskAnnouncementText))])
  {
    if Privileged(s, chat) then Register(Reply(s, chat, AskAnnouncementText), AwaitAnnouncement(s.nextId, chat))
    else Denied(s, chat)
  }

  /** "Редактировать расписание" (index.js:535-539, 562-564): behind the gate, asks for group and day. */
  function EditSchedule(s: State, chat: ChatId): (r: State)
    ensures !Privileged(s, chat) ==> r == Denied(s, chat)
    ensures Privileged(s, chat) ==>
      r == s.(listeners := s.listeners + [AwaitEditFind(s.nextId, chat)], nextId := s.nextId + 1,
              outbox := s.outbox + [Send(chat, Say(AskEditKeyText))])
  {
    if Privileged(s, chat) then Register(Reply(s, chat, AskEditKeyText), AwaitEditFind(s.nextId, chat))
    else Denied(s, chat)
  }

  /**
   * "Назад" (index.js:568-585): from the admin chat, the one transition that
   * turns admin mode off and clears the admin chat. Pending prompts and the
   * material target are left as they are.
   */
  function Back(s: State, chat: ChatId): (r: State)
    ensures !Privileged(s, chat) ==> r == Denied(s, chat)
    ensures Privileged(s, chat) ==>
      r == s.(adminMode := false, currentAdminChatId := None, outbox := s.outbox + [Send(chat, Say(LoggedOutText))])
  {
    if Privileged(s, chat) then Reply(s.(adminMode := false, currentAdminChatId := None), chat, LoggedOutText)
    else Denied(s, chat)
  }

  /** A count written in decimal, as a template literal renders a number. */
  function Decimal(n: nat): string {
    var digit := "0123456789"[n % 10];
    if n < 10 then [digit] else Decimal(n / 10) + [digit]
  }

  /** The statistics message: a header, then one line per group in the order given. */
  function StatsText(stats: seq<GroupCount>): string {
    if stats == [] then "\U{1F4CA} Статистика по группам:\n\n"
    else
      var st := stats[|stats| - 1];
      StatsText(stats[..|stats| - 1]) + "Группа " + st.group + ": " + Decimal(st.count) + " участников\n"
  }

  /**
   * "Просмотреть статистику" (index.js:588-610): behind the gate, the number of
   * users bound to each group, groups in ascending order.
   */
  function Statistics(s: State, chat: ChatId): (r: State)
    ensures !Privileged(s, chat) ==> r == Denied(s, chat)
    ensures Privileged(s, chat) ==> exists stats ::
      && OnlySent(s, r, [Send(chat, Say(StatsText(stats)))])
      && Ascending(stats) && Positive(stats)
      && forall g :: CountOf(stats, g) == UsersIn(s.users, g)
  {
    GroupStatsCorrect(s.users);
    if Privileged(s, chat) then Reply(s, chat, StatsText(GroupStats(s.users))) else Denied(s, chat)
  }

  /* ---------- run-time listeners ---------- */

  /** The name prompt: takes any chat's next message as the name and arms the password prompt for the /admin chat. */
  function FireName(s: State, l: Listener, msg: Message): (r: State)
    requires l.AwaitName?
    ensures r.listeners == Without(s.listeners, l.id) + [AwaitPassword(s.nextId, l.chat, msg.text)]
    ensures r.outbox == s.outbox + [Send(l.chat, Say(AskPasswordText))]
    ensures r == s.(listeners := r.listeners, nextId := s.nextId + 1, outbox := r.outbox)
  {
    var s1 := Unregister(s, l.id);
    Register(Reply(s1, l.chat, AskPasswordText), AwaitPassword(s1.nextId, l.chat, msg.text))
  }

  /**
   * The password prompt (index.js:312-331): admin mode is granted to the
   * /admin chat exactly when the captured name and this message's text are
   * the fixed pair; otherwise only the wrong-credentials reply is sent. The
   * message may come from any chat.
   */
  function FirePassword(s: State, l: Listener, msg: Message): (r: State)
    requires l.AwaitPassword?
    ensures Credentials(l.name, msg.text) ==>
      r == s.(adminMode := true, currentAdminChatId := Some(l.chat), listeners := Without(s.listeners, l.id),
               outbox := s.outbox + [Send(l.chat, Say(WelcomeAdminText))])
    ensures !Credentials(l.name, msg.text) ==>
      r == s.(listeners := Without(s.listeners, l.id), outbox := s.outbox + [Send(l.chat, Say(WrongCredentialsText))])
  {
    var s1 := Unregister(s, l.id);
    if Credentials(l.name, msg.text) then
      Reply(s1.(adminMode := true, currentAdminChatId := Some(l.chat)), l.chat, WelcomeAdminText)
    else Reply(s1, l.chat, WrongCredentialsText)
  }

  /**
   * The schedule-add prompt (index.js:340-345): appends the entry parsed from
   * any chat's next text by position. A message without text makes `split`
   * throw: the prompt is spent and nothing else happens.
   */
  function FireScheduleAdd(s: State, l: Listener, msg: Message): (r: State)
    requires l.AwaitScheduleAdd?
    ensures msg.text.None? ==> r == Unregister(s, l.id)
    ensures msg.text.Some? ==>
      r == s.(schedules := s.schedules + [ScheduleFromText(msg.text.value)], listeners := Without(s.listeners, l.id),
               outbox := s.outbox + [Send(l.chat, Say(ScheduleAddedText))])
  {
    var s1 := Unregister(s, l.id);
    if msg.text.None? then s1
    else Reply(s1.(schedules := s1.schedules + [ScheduleFromText(msg.text.value)]), l.chat, ScheduleAddedText)
  }

  /**
   * The edit flow's lookup (index.js:539-549): when no entry has the typed
   * group and day, only the not-found reply is sent and nothing is written;
   * otherwise the first such entry is echoed and the field prompt is armed for it.
   */
  function FireEditFind(s: State, l: Listener, msg: Message): (r: State)
    requires l.AwaitEditFind?
    ensures r.schedules == s.schedules && r.users == s.users && r.materials == s.materials
    ensures r.adminMode == s.adminMode && r.currentAdminChatId == s.currentAdminChatId
    ensures msg.text.None? ==> r == Unregister(s, l.id)
    ensures msg.text.Some? && FindSchedule(s.schedules, EditKey(msg.text.value).0, EditKey(msg.text.value).1, 0).None? ==>
      r == s.(listeners := Without(s.listeners, l.id), outbox := s.outbox + [Send(l.chat, Say(ScheduleNotFoundText))])
    ensures msg.text.Some? && FindSchedule(s.schedules, EditKey(msg.text.value).0, EditKey(msg.text.value).1, 0).Some? ==>
      var i := FindSchedule(s.schedules, EditKey(msg.text.value).0, EditKey(msg.text.value).1, 0).value;
      && KeyMatches(s.schedules[i], EditKey(msg.text.value).0, EditKey(msg.text.value).1)
      && r.listeners == Without(s.listeners, l.id) + [AwaitEditFields(s.nextId, l.chat, i)]
  {
    var s1 := Unregister(s, l.id);
    if msg.text.None? then s1
    else
      var key := EditKey(msg.text.value);
      match FindSchedule(s1.schedules, key.0, key.1, 0)
      case None => Reply(s1, l.chat, ScheduleNotFoundText)
      case Some(i) =>
        Register(Reply(s1, l.chat, CurrentScheduleText(s1.schedules[i])), AwaitEditFields(s1.nextId, l.chat, i))
  }

  /**
   * The edit flow's second answer (index.js:550-560): overwrites time, subject
   * and location of the found entry, in place; its group and day and every
   * other entry stay.
   */
  function FireEditFields(s: State, l: Listener, msg: Message): (r: State)
    requires l.AwaitEditFields? && l.entry < |s.schedules|
    ensures |r.schedules| == |s.schedules|
    ensures forall k :: 0 <= k < |s.schedules| && k != l.entry ==> r.schedules[k] == s.schedules[k]
    ensures r.schedules[l.entry].group == s.schedules[l.entry].group && r.schedules[l.entry].day == s.schedules[l.entry].day
    ensures msg.text.Some? ==>
      r.schedules[l.entry] == Retimed(s.schedules[l.entry], msg.text.value) && r.outbox == s.outbox + [Send(l.chat, Say(ScheduleUpdatedText))]
    ensures msg.text.None? ==> r == Unregister(s, l.id)
    ensures r.listeners == Without(s.listeners, l.id)
  {
    var s1 := Unregister(s, l.id);
    if msg.text.None? then s1
    else
      Reply(s1.(schedules := s1.schedules[l.entry := Retimed(s1.schedules[l.entry], msg.text.value)]), l.chat,
            ScheduleUpdatedText)
  }

  /**
   * The announcement listener (index.js:502-525): it ignores messages from
   * other chats and every message while admin mode is off; empty text gets a
   * reply and the listener stays; otherwise the confirmation goes to the admin,
   * one announcement to every bound user, and the listener removes itself.
   * Nothing is stored in the Announcement collection.
   */
  function FireAnnouncement(s: State, l: Listener, msg: Message): (r: State)
    requires l.AwaitAnnouncement?
    ensures !(msg.chatId == l.chat && s.adminMode) ==> r == s
    ensures msg.chatId == l.chat && s.adminMode && !Truthy(msg.text) ==>
      OnlySent(s, r, [Send(l.chat, Say(EmptyAnnouncementText))])
    ensures msg.chatId == l.chat && s.adminMode && Truthy(msg.text) ==>
      r == s.(listeners := Without(s.listeners, l.id),
              outbox := s.outbox + [Send(l.chat, Say(AnnouncementSentText))]
                                 + Broadcast(s.users, Say(AnnouncementText(msg.text.value))))
  {
    if !(msg.chatId == l.chat && s.adminMode) then s
    else if !Truthy(msg.text) then Reply(s, l.chat, EmptyAnnouncementText)
    else
      var s1 := Reply(s, l.chat, AnnouncementSentText);
      Unregister(s1.(outbox := s1.outbox + Broadcast(s1.users, Say(AnnouncementText(msg.text.value)))), l.id)
  }

  /** Runs one listener on a message. */
  function FireListener(s: State, l: Listener, msg: Message): (r: State)
    requires Fits(l, s.schedules)
    ensures |r.schedules| >= |s.schedules|
  {
    match l
    case AwaitName(_, _) => FireName(s, l, msg)
    case AwaitPassword(_, _, _) => FirePassword(s, l, msg)
    case AwaitScheduleAdd(_, _) => FireScheduleAdd(s, l, msg)
    case AwaitEditFind(_, _) => FireEditFind(s, l, msg)
    case AwaitEditFields(_, _, _) => FireEditFields(s, l, msg)
    case AwaitAnnouncement(_, _) => FireAnnouncement(s, l, msg)
  }

  /* ---------- the material handler ---------- */

  /** The material handler is active: the prompt is on, admin mode is on, and the message is from the admin chat. */
  predicate MaterialActive(s: State, msg: Message) {
    s.waitingForMaterial && s.adminMode && s.currentAdminChatId == Some(msg.chatId)
  }

  /**
   * The material handler (index.js:392-443). Inactive, it changes nothing. An
   * unsupported message gets a reply and leaves the prompt and its target as
   * they were. Otherwise exactly one Material is stored for the target group,
   * every user bound to it is sent the material, the admin is told, and the
   * prompt and its target are cleared.
   */
  function OnMaterial(s: State, msg: Message): (r: State)
    ensures !MaterialActive(s, msg) ==> r == s
    ensures MaterialActive(s, msg) && Classify(msg).Unsupported? ==> OnlySent(s, r, [Send(msg.chatId, Say(UnsupportedText))])
    ensures MaterialActive(s, msg) && Classify(msg).EmptyPhoto? ==> r == s
    ensures MaterialActive(s, msg) && Stored(Classify(msg)) ==>
      r == s.(materials := s.materials + [MaterialOf(Classify(msg), s.targetGroup)],
              outbox := s.outbox + FanOut(s.users, s.targetGroup, Payloads(Classify(msg)))
                                 + [Send(msg.chatId, Say(MaterialSentText(s.targetGroup)))],
              waitingForMaterial := false, targetGroup := None)
  {
    if !MaterialActive(s, msg) then s
    else
      var c := Classify(msg);
      if c.Unsupported? then Reply(s, msg.chatId, UnsupportedText)
      else if c.EmptyPhoto? then s
      else
        var sent := FanOut(s.users, s.targetGroup, Payloads(c));
        var s1 := s.(materials := s.materials + [MaterialOf(c, s.targetGroup)], outbox := s.outbox + sent);
        Reply(s1, msg.chatId, MaterialSentText(s.targetGroup)).(waitingForMaterial := false, targetGroup := None)
  }

  /* ---------- dispatch ---------- */

  /** The snapshot's listeners run one after another on the same message. */
  function FireAll(s: State, snapshot: seq<Listener>, msg: Message): (r: State)
    requires forall l :: l in snapshot ==> Fits(l, s.schedules)
    ensures |r.schedules| >= |s.schedules|
  {
    if snapshot == [] then s
    else
      var last := snapshot[|snapshot| - 1];
      assert forall l :: l in snapshot[..|snapshot| - 1] ==> l in snapshot;
      var mid := FireAll(s, snapshot[..|snapshot| - 1], msg);
      assert last in snapshot;
      assert Fits(last, s.schedules);
      FireListener(mid, last, msg)
  }

  /** The `onText` handlers of the core, one per registration. */
  datatype Command =
    | ViewScheduleCmd | ViewMaterialsCmd | AnnouncementsCmd | AdminCmd | AddScheduleCmd
    | AddMaterialCmd | ViewMaterialsNewestCmd | ClearMaterialsCmd | AddAnnouncementCmd | EditScheduleCmd | BackCmd

  /** The pattern each handler was registered with; every one is a plain string. */
  function PatternOf(c: Command): string {
    match c
    case ViewScheduleCmd => ViewSchedulePattern
    case ViewMaterialsCmd => ViewMaterialsPattern
    case AnnouncementsCmd => AnnouncementsPattern
    case AdminCmd => AdminPattern
    case AddScheduleCmd => AddSchedulePattern
    case AddMaterialCmd => AddMaterialPattern
    case ViewMaterialsNewestCmd => ViewMaterialsPattern
    case ClearMaterialsCmd => ClearMaterialsPattern
    case AddAnnouncementCmd => AddAnnouncementPattern
    case EditScheduleCmd => EditSchedulePattern
    case BackCmd => BackPattern
  }

  /** The handlers in the order index.js registers them. */
  const Router: seq<Command> := [ViewScheduleCmd, ViewMaterialsCmd, AnnouncementsCmd, AdminCmd, AddScheduleCmd,
                                 AddMaterialCmd, ViewMaterialsNewestCmd, ClearMaterialsCmd, AddAnnouncementCmd,
                                 EditScheduleCmd, BackCmd]

  /** Runs one `onText` handler on a message. */
  function Run(s: State, c: Command, msg: Message): State {
    match c
    case ViewScheduleCmd => ViewSchedule(s, msg.fromId)
    case ViewMaterialsCmd => ViewMaterials(s, msg.fromId)
    case AnnouncementsCmd => ListAnnouncements(s, msg.chatId)
    case AdminCmd => AdminCommand(s, msg.chatId)
    case AddScheduleCmd => AddSchedule(s, msg.chatId)
    case AddMaterialCmd => AddMaterial(s, msg.chatId)
    case ViewMaterialsNewestCmd => ViewMaterialsNewest(s, msg.chatId)
    case ClearMaterialsCmd => ClearMaterials(s, msg.chatId)
    case AddAnnouncementCmd => AddAnnouncement(s, msg.chatId)
    case EditScheduleCmd => EditSchedule(s, msg.chatId)
    case BackCmd => Back(s, msg.chatId)
  }

  /** Every handler of `cmds` whose pattern occurs in `text` runs, in order. */
  function RunMatching(s: State, cmds: seq<Command>, text: string, msg: Message): State {
    if cmds == [] then s
    else
      var mid := RunMatching(s, cmds[..|cmds| - 1], text, msg);
      var c := cmds[|cmds| - 1];
      if Contains(text, PatternOf(c)) then Run(mid, c, msg) else mid
  }

  /** The text handlers: every registered pattern that occurs in a non-empty text. */
  function OnText(s: State, msg: Message): State {
    if !Truthy(msg.text) then s else RunMatching(s, Router, msg.text.value, msg)
  }

  /** One inbound message, handled to completion. */
  function OnMessage(s: State, msg: Message): State
    requires Valid(s)
  {
    var s1 := OnMaterial(s, msg);
    OnText(FireAll(s1, s.listeners, msg), msg)
  }

  /**
   * The first `callback_query` handler (index.js:224-260): a group change for
   * anyone, the menu, and, with no admin check, arming the material prompt.
   */
  function OnUserCallback(s: State, cb: Callback): (r: State)
    ensures r.adminMode == s.adminMode && r.currentAdminChatId == s.currentAdminChatId
    ensures r.schedules == s.schedules && r.materials == s.materials && r.listeners == s.listeners
    ensures r.nextId == s.nextId
    ensures EndsWith(cb.data, ChangeGroupSuffix) ==> r.users == Upsert(s.users, cb.fromId, StripChangeGroup(cb.data))
    ensures !EndsWith(cb.data, ChangeGroupSuffix) ==> r.users == s.users
    ensures StartsWith(cb.data, MaterialTargetPrefix) ==> r.waitingForMaterial && r.targetGroup == ThirdField(cb.data)
    ensures !StartsWith(cb.data, MaterialTargetPrefix) ==>
      r.waitingForMaterial == s.waitingForMaterial && r.targetGroup == s.targetGroup
  {
    var d := cb.data;
    var s1 :=
      if EndsWith(d, ChangeGroupSuffix) then
        var g := StripChangeGroup(d);
        Reply(s.(users := Upsert(s.users, cb.fromId, g)), cb.chatId, GroupChangedText(g))
      else s;
    var s2 := if d == BackToMenuData then Reply(s1, cb.chatId, MenuText) else s1;
    if StartsWith(d, MaterialTargetPrefix) then
      var t := ThirdField(d);
      Reply(s2.(targetGroup := t, waitingForMaterial := true), cb.chatId, MaterialPromptText(t))
    else s2
  }

  /**
   * The second `callback_query` handler (index.js:370-389): behind the gate
   * and without a no-access reply, arms the material prompt or deletes the
   * materials of a group.
   */
  function OnAdminCallback(s: State, cb: Callback): (r: State)
    ensures !Privileged(s, cb.chatId) ==> r == s
    ensures r.adminMode == s.adminMode && r.currentAdminChatId == s.currentAdminChatId
    ensures r.users == s.users && r.schedules == s.schedules && r.listeners == s.listeners
    ensures r.nextId == s.nextId
    ensures !StartsWith(cb.data, AdminMaterialTargetPrefix) ==>
      r.waitingForMaterial == s.waitingForMaterial && r.targetGroup == s.targetGroup
    ensures Privileged(s, cb.chatId) && StartsWith(cb.data, AdminMaterialTargetPrefix) ==>
      r.waitingForMaterial && r.targetGroup == ThirdField(cb.data) && r.materials == s.materials
    ensures Privileged(s, cb.chatId) && !StartsWith(cb.data, AdminMaterialTargetPrefix) && StartsWith(cb.data, ClearGroupPrefix) ==>
      r.materials == ClearGroup(s.materials, ThirdField(cb.data))
  {
    if !Privileged(s, cb.chatId) then s
    else if StartsWith(cb.data, AdminMaterialTargetPrefix) then
      var t := ThirdField(cb.data);
      Reply(s.(targetGroup := t, waitingForMaterial := true), cb.chatId, AdminMaterialPromptText(t))
    else if StartsWith(cb.data, ClearGroupPrefix) then
      var g := ThirdField(cb.data);
      Reply(s.(materials := ClearGroup(s.materials, g)), cb.chatId, MaterialsClearedText(g))
    else s
  }

  /** One button press: both callback handlers, in registration order. */
  function OnCallback(s: State, cb: Callback): State {
    OnAdminCallback(OnUserCallback(s, cb), cb)
  }
}
