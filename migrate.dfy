/** The one-off migration from the single-chat configuration: the configured chat becomes a
    subscriber of the default lines with general alerts on. */
module Migration {
  import opened Common
  import opened Subscriptions

  /** The lines the configured chat is subscribed to. */
  const DefaultLines: seq<string> := ["11", "44"]

  /** `subscribe_line` for each of `lines` in turn, first to last. */
  function SubscribeAll(t: Table, id: string, lines: seq<string>): (r: Table)
    requires WellFormed(t)
    ensures WellFormed(r)
    ensures lines == [] ==> r == t
    decreases |lines|
  {
    if lines == [] then t
    else SubscribeAll(Subscribe(t, id, lines[0]).0, id, lines[1..])
  }

  /** Subscribing to each of `lines` changes only the record of `id`, which afterwards holds
      every one of them besides the lines it held before, with its flag as it was. */
  lemma {:induction false} SubscribeAllSpec(t: Table, id: string, lines: seq<string>)
    requires WellFormed(t)
    ensures var r := SubscribeAll(t, id, lines);
      && OnlyTouches(t, r, id)
      && (lines != [] ==> id in r.users)
      && (forall l :: l in lines ==> l in UserOf(r, id).lines)
      && (forall l :: l in UserOf(t, id).lines ==> l in UserOf(r, id).lines)
      && UserOf(r, id).receiveGeneral == UserOf(t, id).receiveGeneral
    decreases |lines|
  {
    if lines != [] {
      var t1 := Subscribe(t, id, lines[0]).0;
      SubscribeAllSpec(t1, id, lines[1..]);
      OnlyTouchesTrans(t, t1, SubscribeAll(t, id, lines), id);
      assert forall l :: l in lines ==> l == lines[0] || l in lines[1..];
    }
  }

  /** Setting the flag to the value it already has changes nothing. */
  lemma SetGeneralIdle(t: Table, id: string, receive: bool)
    requires WellFormed(t) && id in t.users && t.users[id].receiveGeneral == Some(receive)
    ensures SetGeneral(t, id, receive) == t
  {
    assert Touch(t, id) == t;
    assert t.users[id := t.users[id].(receiveGeneral := Some(receive))] == t.users;
  }

  /** Subscribing to lines the record already holds changes nothing. */
  lemma {:induction false} SubscribeAllHeld(t: Table, id: string, lines: seq<string>)
    requires WellFormed(t) && id in t.users
    requires forall l :: l in lines ==> l in t.users[id].lines
    ensures SubscribeAll(t, id, lines) == t
    decreases |lines|
  {
    if lines != [] {
      assert lines[0] in lines;
      assert forall l :: l in lines[1..] ==> l in lines;
      SubscribeAllHeld(t, id, lines[1..]);
    }
  }

  /** The store after the migration: untouched without a configured chat id; otherwise the
      configured chat subscribed to each default line and then set to take general alerts. */
  function Migrated(t: Table, chatId: Option<string>): (r: Table)
    requires WellFormed(t)
    ensures WellFormed(r)
    ensures !Truthy(chatId) ==> r == t
  {
    if !Truthy(chatId) then t
    else SetGeneral(SubscribeAll(t, chatId.value, DefaultLines), chatId.value, true)
  }

  /** With a configured chat id, the migration changes only that chat's record, which then holds
      both default lines besides its own and takes general alerts. */
  lemma MigratedSpec(t: Table, chatId: Option<string>)
    requires WellFormed(t) && Truthy(chatId)
    ensures var r := Migrated(t, chatId);
      && OnlyTouches(t, r, chatId.value) && chatId.value in r.users
      && "11" in r.users[chatId.value].lines && "44" in r.users[chatId.value].lines
      && (forall l :: l in UserOf(t, chatId.value).lines ==> l in r.users[chatId.value].lines)
      && General(r.users[chatId.value])
  {
    var id := chatId.value;
    var t1 := SubscribeAll(t, id, DefaultLines);
    SubscribeAllSpec(t, id, DefaultLines);
    assert "11" in DefaultLines && "44" in DefaultLines;
    OnlyTouchesTrans(t, t1, Migrated(t, chatId), id);
  }

  /** A record that already holds both default lines and takes general alerts is left as it
      is by the migration. */
  lemma MigrationSettled(t: Table, id: string)
    requires WellFormed(t) && id in t.users
    requires "11" in t.users[id].lines && "44" in t.users[id].lines
    requires t.users[id].receiveGeneral == Some(true)
    ensures Migrated(t, Some(id)) == t
  {
    assert forall l :: l in DefaultLines ==> l in t.users[id].lines by {
      assert forall l :: l in DefaultLines ==> l == "11" || l == "44";
    }
    SubscribeAllHeld(t, id, DefaultLines);
    SetGeneralIdle(t, id, true);
  }

  /** Migrating twice leaves the store as migrating once: both lines are already there and
      the flag is already on. */
  lemma MigrationIdempotent(t: Table, chatId: Option<string>)
    requires WellFormed(t)
    ensures Migrated(Migrated(t, chatId), chatId) == Migrated(t, chatId)
  {
    if Truthy(chatId) {
      var once := Migrated(t, chatId);
      MigratedSpec(t, chatId);
      assert once.users[chatId.value].receiveGeneral == Some(true);
      assert chatId == Some(chatId.value);
      MigrationSettled(once, chatId.value);
    }
  }

  /** The loop of `migrate_to_subscriptions`: `subscribe_line` for each of `lines` in turn,
      each change saved as it is made. */
  method SubscribeEach(id: string, lines: seq<string>, manager: SubscriptionManager)
    requires manager.Valid()
    modifies manager
    ensures manager.Valid() && manager.data == SubscribeAll(old(manager.data), id, lines)
    ensures |manager.saved| >= |old(manager.saved)|
  {
    ghost var goal := SubscribeAll(manager.data, id, lines);
    for k := 0 to |lines|
      invariant manager.Valid()
      invariant SubscribeAll(manager.data, id, lines[k..]) == goal
      invariant |manager.saved| >= |old(manager.saved)|
    {
      assert lines[k..][1..] == lines[k + 1..];
      var _ := manager.SubscribeLine(id, lines[k]);
    }
    assert lines[|lines|..] == [];
  }

  /** `migrate_to_subscriptions`, given the configured chat id and the loaded store. */
  method MigrateToSubscriptions(chatId: Option<string>, manager: SubscriptionManager)
    requires manager.Valid()
    modifies manager
    ensures manager.Valid() && manager.data == Migrated(old(manager.data), chatId)
    ensures !Truthy(chatId) ==> manager.saved == old(manager.saved)
    ensures Truthy(chatId) ==> |manager.saved| > |old(manager.saved)| && manager.saved[|manager.saved| - 1] == manager.data
  {
    if !Truthy(chatId) {
      return;
    }
    var id := chatId.value;
    SubscribeEach(id, DefaultLines, manager);
    manager.SetReceiveGeneral(id, true);
  }
}
