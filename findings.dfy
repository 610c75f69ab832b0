/**
 * The material-target and clear buttons as index.js writes them (module
 * Machine, which the handlers offer): the first one carries a Latin `11T`
 * (index.js:358, 484), while the group-selection button binds users to a
 * Cyrillic `11Т` (index.js:216). The lemmas below follow a press of those
 * buttons through the modelled handlers, and show that the corrected lists
 * defined here reach exactly the groups the users chose.
 */
module Findings {
  import opened Wrappers
  import opened Strings
  import opened Records
  import opened Replies
  import opened Parse
  import opened Materials
  import opened Store
  import opened Delivery
  import opened Machine
  import Properties

  /** The material-target buttons as evidently intended: every group written in Cyrillic, as on the group buttons. */
  const CorrectedMaterialButtons: seq<string> := ["dnwmppk_group_11Т", "dnwmppk_group_21Т", "dnwmppk_group_31Т"]
  /** The clear buttons as evidently intended. */
  const CorrectedClearButtons: seq<string> := ["clear_group_11Т", "clear_group_21Т", "clear_group_31Т"]

  /** Each group button binds its user to the matching group code. */
  lemma GroupButtonBinds(i: nat)
    requires i < 3
    ensures StripChangeGroup(GroupButtons[i]) == Groups[i]
  {
    var g := Groups[i];
    assert '_' !in g;
    assert GroupButtons[i] == g + ChangeGroupSuffix by {
      if i == 0 {
      } else if i == 1 {
      } else {
      }
    }
    ButtonGroupOf(g);
  }

  /** The group button of a group code without an underscore binds that code. */
  lemma ButtonGroupOf(g: string)
    requires '_' !in g
    ensures StripChangeGroup(g + ChangeGroupSuffix) == g
  {
    StripChangeGroupOf(g, "");
    assert g + ChangeGroupSuffix + "" == g + ChangeGroupSuffix;
  }

  /** The third `_`-field of `dnwmppk_group_<g>` is `g`. */
  lemma MaterialTargetOf(g: string)
    requires '_' !in g
    ensures ThirdField("dnwmppk_group_" + g) == Some(g)
  {
    ThirdFieldOf("dnwmppk", "group", g);
    assert "dnwmppk" + Underscore + "group" + Underscore + g == "dnwmppk_group_" + g;
  }

  /** The third `_`-field of `clear_group_<g>` is `g`. */
  lemma ClearTargetOf(g: string)
    requires '_' !in g
    ensures ThirdField("clear_group_" + g) == Some(g)
  {
    ThirdFieldOf("clear", "group", g);
    assert "clear" + Underscore + "group" + Underscore + g == "clear_group_" + g;
  }

  /** As written, the first material button the bot offers targets "11T". */
  lemma WrittenMaterialTarget()
    ensures ThirdField(MaterialButtons[0]) == Some("11T")
  {
    MaterialTargetOf("11T");
    assert MaterialButtons[0] == "dnwmppk_group_" + "11T";
  }

  /** As written, the first clear button the bot offers targets "11T". */
  lemma WrittenClearTarget()
    ensures ThirdField(ClearButtons[0]) == Some("11T")
  {
    ClearTargetOf("11T");
    assert ClearButtons[0] == "clear_group_" + "11T";
  }

  /** No group button binds "11T". */
  lemma NoGroupIsLatin(i: nat)
    requires i < 3
    ensures StripChangeGroup(GroupButtons[i]) != "11T"
  {
    GroupButtonBinds(i);
    assert Groups[i][2] != "11T"[2];
  }

  /**
   * None of the material-target and clear buttons, as written or corrected,
   * is a group-change button, and the material ones carry the prefixes both
   * callback handlers test.
   */
  lemma ButtonShapes(i: nat)
    requires i < 3
    ensures !EndsWith(MaterialButtons[i], ChangeGroupSuffix) && !EndsWith(ClearButtons[i], ChangeGroupSuffix)
    ensures !EndsWith(CorrectedMaterialButtons[i], ChangeGroupSuffix) && !EndsWith(CorrectedClearButtons[i], ChangeGroupSuffix)
    ensures StartsWith(MaterialButtons[i], MaterialTargetPrefix) && StartsWith(CorrectedMaterialButtons[i], MaterialTargetPrefix)
    ensures StartsWith(ClearButtons[i], ClearGroupPrefix) && StartsWith(CorrectedClearButtons[i], ClearGroupPrefix)
    ensures !StartsWith(ClearButtons[i], MaterialTargetPrefix) && !StartsWith(CorrectedClearButtons[i], MaterialTargetPrefix)
  {
    assert MaterialButtons[i][5] != ChangeGroupSuffix[0];
    assert CorrectedMaterialButtons[i][5] != ChangeGroupSuffix[0];
    assert ClearButtons[i][3] != ChangeGroupSuffix[0];
    assert CorrectedClearButtons[i][3] != ChangeGroupSuffix[0];
    assert ClearButtons[i][0] != MaterialTargetPrefix[0];
    assert CorrectedClearButtons[i][0] != MaterialTargetPrefix[0];
  }

  /** With unique ids, a user's only binding is the one FindUser returns. */
  lemma OnlyBinding(users: seq<UserBinding>, uid: ChatId, group: string)
    requires UniqueIds(users) && FindUser(users, uid) == Some(UserBinding(uid, group))
    ensures forall g :: BoundTo(users, uid, Some(g)) ==> g == group
  {
    forall g | BoundTo(users, uid, Some(g)) ensures g == group {
      var u :| u in users && u.userId == uid && Some(u.group) == Some(g);
      var i :| 0 <= i < |users| && users[i] == u;
      var j :| 0 <= j < |users| && users[j] == UserBinding(uid, group);
      assert i == j;
    }
  }

  /**
   * Pressing a material-target button that is not a group-change button, from
   * the admin chat, arms the prompt for its third field and keeps every binding.
   */
  lemma PressMaterialButton(s: State, cb: Callback)
    requires Privileged(s, cb.chatId) && StartsWith(cb.data, MaterialTargetPrefix) && !EndsWith(cb.data, ChangeGroupSuffix)
    ensures var r := OnCallback(s, cb);
      && r.users == s.users && r.waitingForMaterial && r.targetGroup == ThirdField(cb.data)
      && r.adminMode && r.currentAdminChatId == Some(cb.chatId)
  {
    Properties.MaterialButtonArms(s, cb);
  }

  /**
   * As written: the admin asks to add a material, presses the first button
   * offered and sends a stored material; a user who chose 11Т with the group
   * button receives nothing of it.
   */
  lemma WrittenButtonUserMissesMaterial(s: State, chat: ChatId, from: ChatId, msg: Message, uid: ChatId)
    requires Privileged(s, chat) && msg.chatId == chat && Stored(Classify(msg)) && UniqueIds(s.users)
    requires FindUser(s.users, uid) == Some(UserBinding(uid, StripChangeGroup(GroupButtons[0])))
    ensures var offered := AddMaterial(s, chat);
      var armed := OnCallback(offered, Callback(from, chat, MaterialButtons[0]));
      var r := OnMaterial(armed, msg);
      && offered.outbox == s.outbox + [Send(chat, Choice(ChooseMaterialGroupText, MaterialButtons))]
      && |r.outbox| >= |armed.outbox|
      && PayloadsTo(r.outbox[|armed.outbox|..], uid)
         == if uid == chat then [Say(MaterialSentText(Some("11T")))] else []
  {
    var offered := AddMaterial(s, chat);
    var cb := Callback(from, chat, MaterialButtons[0]);
    ButtonShapes(0);
    PressMaterialButton(offered, cb);
    WrittenMaterialTarget();
    NoGroupIsLatin(0);
    OnlyBinding(s.users, uid, StripChangeGroup(GroupButtons[0]));
    Properties.MaterialDelivery(OnCallback(offered, cb), msg, uid);
  }

  /**
   * As written: the admin asks to clear materials and presses the first button
   * offered; every material of group 11Т is still there.
   */
  lemma WrittenClearKeepsGroup(s: State, chat: ChatId, from: ChatId, m: Material)
    requires Privileged(s, chat) && m in s.materials && m.group == Some(StripChangeGroup(GroupButtons[0]))
    ensures var offered := ClearMaterials(s, chat);
      && offered.outbox == s.outbox + [Send(chat, Choice(ChooseClearGroupText, ClearButtons))]
      && m in OnCallback(offered, Callback(from, chat, ClearButtons[0])).materials
  {
    ButtonShapes(0);
    WrittenClearTarget();
    NoGroupIsLatin(0);
  }

  /** Corrected: every material button targets the group its group button binds. */
  lemma MaterialButtonMatches(i: nat)
    requires i < 3
    ensures ThirdField(CorrectedMaterialButtons[i]) == Some(StripChangeGroup(GroupButtons[i]))
  {
    GroupButtonBinds(i);
    var g := Groups[i];
    assert '_' !in g;
    assert CorrectedMaterialButtons[i] == "dnwmppk_group_" + g by {
      if i == 0 {
      } else if i == 1 {
      } else {
      }
    }
    MaterialTargetOf(g);
  }

  /** Corrected: every clear button targets the group its group button binds. */
  lemma ClearButtonMatches(i: nat)
    requires i < 3
    ensures ThirdField(CorrectedClearButtons[i]) == Some(StripChangeGroup(GroupButtons[i]))
  {
    GroupButtonBinds(i);
    var g := Groups[i];
    assert '_' !in g;
    assert CorrectedClearButtons[i] == "clear_group_" + g by {
      if i == 0 {
      } else if i == 1 {
      } else {
      }
    }
    ClearTargetOf(g);
  }

  /**
   * Corrected: after the admin presses corrected material button `i` and sends
   * a stored material, a user who chose a group with group button `i`
   * receives the whole material.
   */
  lemma ButtonUserGetsMaterial(s: State, chat: ChatId, from: ChatId, msg: Message, uid: ChatId, i: nat)
    requires i < 3 && Privileged(s, chat) && msg.chatId == chat && Stored(Classify(msg)) && UniqueIds(s.users)
    requires FindUser(s.users, uid) == Some(UserBinding(uid, StripChangeGroup(GroupButtons[i])))
    ensures var armed := OnCallback(s, Callback(from, chat, CorrectedMaterialButtons[i]));
      var r := OnMaterial(armed, msg);
      && |r.outbox| >= |armed.outbox|
      && PayloadsTo(r.outbox[|armed.outbox|..], uid)
         == Payloads(Classify(msg)) + (if uid == chat then [Say(MaterialSentText(armed.targetGroup))] else [])
  {
    var cb := Callback(from, chat, CorrectedMaterialButtons[i]);
    ButtonShapes(i);
    PressMaterialButton(s, cb);
    MaterialButtonMatches(i);
    var armed := OnCallback(s, cb);
    var u := FindUser(s.users, uid).value;
    assert BoundTo(armed.users, uid, armed.targetGroup) by {
      assert u in armed.users && u.userId == uid && Some(u.group) == armed.targetGroup;
    }
    Properties.MaterialDelivery(armed, msg, uid);
  }

  /**
   * Corrected: pressing corrected clear button `i` from the admin chat removes
   * exactly the materials of the group that group button `i` binds.
   */
  lemma ClearRemovesGroup(s: State, chat: ChatId, from: ChatId, i: nat)
    requires i < 3 && Privileged(s, chat)
    ensures forall m :: (m in OnCallback(s, Callback(from, chat, CorrectedClearButtons[i])).materials
                         <==> m in s.materials && m.group != Some(StripChangeGroup(GroupButtons[i])))
  {
    ButtonShapes(i);
    ClearButtonMatches(i);
  }
}
