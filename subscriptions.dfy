/** The subscription store: for each chat id, the bus lines it follows and whether it takes
    general alerts. The table is a value (`Table`) with pure operations on it; the class
    `SubscriptionManager` holds one table and changes it in place, as the program does. */
module Subscriptions {
  import opened Common
  import opened Text

  /** One subscriber record. A record read from a file may lack the general-alerts flag:
      that is `None` here, and every reader takes it as true. */
  datatype UserData = UserData(lines: seq<string>, receiveGeneral: Option<bool>)

  /** The record created for a chat id seen for the first time. */
  const NewUser := UserData([], Some(true))

  /** The records, and their chat ids in the order they were inserted. */
  datatype Table = Table(order: seq<string>, users: map<string, UserData>)

  /** What a missing or unreadable subscriptions file yields. */
  const EmptyTable := Table([], map[])

  /** Each record's chat id is listed exactly once in the insertion order. */
  ghost predicate WellFormed(t: Table) {
    Distinct(t.order) && (forall id :: id in t.order <==> id in t.users)
  }

  /** The general-alerts flag as every reader sees it: a missing flag counts as true. */
  function General(u: UserData): bool {
    u.receiveGeneral.GetOr(true)
  }

  /** The record of `id`, or the one that would be created for it. */
  function UserOf(t: Table, id: string): UserData {
    if id in t.users then t.users[id] else NewUser
  }

  /** From `t` to `r` only the record of `id` may change, and `id` may only be appended to the
      insertion order if it was new. */
  ghost predicate OnlyTouches(t: Table, r: Table, id: string) {
    && (r.order == t.order || (id !in t.users && r.order == t.order + [id]))
    && (forall x :: x != id ==> (x in r.users <==> x in t.users))
    && (forall x :: x != id && x in t.users ==> x in r.users && r.users[x] == t.users[x])
  }

  /** Two steps that each touch only `id` together touch only `id`. */
  lemma OnlyTouchesTrans(a: Table, b: Table, c: Table, id: string)
    requires WellFormed(a) && WellFormed(b) && OnlyTouches(a, b, id) && OnlyTouches(b, c, id)
    ensures OnlyTouches(a, c, id)
  {
    if b.order != a.order {
      assert id in b.order;
    } else if id in a.users {
      assert id in b.order;
    }
    forall x | x != id ensures x in c.users <==> x in a.users {
    }
    forall x | x != id && x in a.users ensures x in c.users && c.users[x] == a.users[x] {
    }
  }

  /** A well-formed table has one record per listed chat id. */
  lemma TableSize(t: Table)
    requires WellFormed(t)
    ensures |t.users| == |t.order|
  {
    DistinctCardinality(t.order);
    assert t.users.Keys == set x | x in t.order;
  }

  // ---------------------------------------------------------------------------------------
  // Operations on the table

  /** Looking a chat id up creates its record when it has none: the table gains a user even
      when the caller only meant to read. */
  function Touch(t: Table, id: string): (r: Table)
    requires WellFormed(t)
    ensures WellFormed(r) && id in r.users && r.users[id] == UserOf(t, id)
    ensures OnlyTouches(t, r, id)
    ensures id in t.users ==> r == t
    ensures id !in t.users ==> r.users[id] == NewUser && |r.users| == |t.users| + 1
  {
    if id in t.users then t else Table(t.order + [id], t.users[id := NewUser])
  }

  /** Adds `line` to the record of `id` unless it is there already; the flag says whether
      anything was added. */
  function Subscribe(t: Table, id: string, line: string): (r: (Table, bool))
    requires WellFormed(t)
    ensures WellFormed(r.0) && OnlyTouches(t, r.0, id) && id in r.0.users
    ensures r.1 <==> line !in UserOf(t, id).lines
    ensures line in r.0.users[id].lines
    ensures r.0.users[id].receiveGeneral == UserOf(t, id).receiveGeneral
    ensures r.1 ==> r.0.users[id].lines == UserOf(t, id).lines + [line]
    ensures !r.1 ==> r.0 == t
  {
    var t1 := Touch(t, id);
    var u := t1.users[id];
    if line in u.lines then (t1, false)
    else (Table(t1.order, t1.users[id := u.(lines := u.lines + [line])]), true)
  }

  /** Subscribing never repeats a line: a line it adds is there once, and a record without
      repetitions stays without them. */
  lemma SubscribeNoDuplicates(t: Table, id: string, line: string)
    requires WellFormed(t)
    ensures var (r, added) := Subscribe(t, id, line);
      && (added ==> multiset(r.users[id].lines)[line] == 1)
      && (Distinct(UserOf(t, id).lines) ==> Distinct(r.users[id].lines))
  {
    var (r, added) := Subscribe(t, id, line);
    if added {
      var before := UserOf(t, id).lines;
      assert r.users[id].lines == before + [line];
      assert multiset(before)[line] == 0;
    }
  }

  /** Python's `list.remove(x)`: drops the first occurrence of `x`, if any. */
  function RemoveFirst(s: seq<string>, x: string): (r: seq<string>)
    ensures x in s ==> |r| == |s| - 1 && multiset(r) == multiset(s) - multiset{x}
    ensures x !in s ==> r == s
    ensures forall y :: y in r ==> y in s
  {
    if s == [] then []
    else
      assert s == [s[0]] + s[1..];
      if s[0] == x then s[1..] else [s[0]] + RemoveFirst(s[1..], x)
  }

  /** `list.remove` takes out the first copy of `x` and keeps the other elements in their
      order: when `k` is the first position holding `x`, the result is `s` without position `k`. */
  lemma {:induction false} RemoveFirstAt(s: seq<string>, x: string, k: nat)
    requires k < |s| && s[k] == x && x !in s[..k]
    ensures RemoveFirst(s, x) == s[..k] + s[k + 1..]
    decreases k
  {
    assert s == [s[0]] + s[1..];
    if k > 0 {
      var t := s[1..];
      assert s[0] != x by { assert s[0] == s[..k][0]; }
      assert x !in t[..k - 1] by { assert t[..k - 1] == s[..k][1..]; }
      RemoveFirstAt(t, x, k - 1);
      assert s[..k] == [s[0]] + t[..k - 1];
      assert s[k + 1..] == t[k..];
    }
  }

  /** Without repetitions, removing the first occurrence removes the element altogether. */
  lemma {:induction false} RemoveFirstDistinct(s: seq<string>, x: string)
    ensures Distinct(s) ==> Distinct(RemoveFirst(s, x)) && x !in RemoveFirst(s, x)
  {
    if s != [] && Distinct(s) {
      assert Distinct(s[1..]);
      if s[0] != x {
        RemoveFirstDistinct(s[1..], x);
        assert s[0] !in s[1..];
      }
    }
  }

  /** Removes `line` from the record of `id` when it is there; the flag says whether it
      was. The record itself always stays, possibly with no lines. */
  function Unsubscribe(t: Table, id: string, line: string): (r: (Table, bool))
    requires WellFormed(t)
    ensures WellFormed(r.0) && OnlyTouches(t, r.0, id) && id in r.0.users
    ensures r.1 <==> line in UserOf(t, id).lines
    ensures r.0.users[id].receiveGeneral == UserOf(t, id).receiveGeneral
    ensures r.0.users[id].lines == RemoveFirst(UserOf(t, id).lines, line)
    ensures Distinct(UserOf(t, id).lines) ==> line !in r.0.users[id].lines
    ensures !r.1 ==> r.0 == Touch(t, id)
  {
    var t1 := Touch(t, id);
    var u := t1.users[id];
    RemoveFirstDistinct(u.lines, line);
    if line in u.lines then (Table(t1.order, t1.users[id := u.(lines := RemoveFirst(u.lines, line))]), true)
    else (t1, false)
  }

  /** Sets the general-alerts flag of `id`, leaving its lines and every other record alone. */
  function SetGeneral(t: Table, id: string, receive: bool): (r: Table)
    requires WellFormed(t)
    ensures WellFormed(r) && OnlyTouches(t, r, id) && id in r.users
    ensures r.users[id].lines == UserOf(t, id).lines
    ensures r.users[id].receiveGeneral == Some(receive) && General(r.users[id]) == receive
  {
    var t1 := Touch(t, id);
    Table(t1.order, t1.users[id := t1.users[id].(receiveGeneral := Some(receive))])
  }

  // ---------------------------------------------------------------------------------------
  // Queries

  /** Whether a subscriber with record `u` is to receive an alert for `line`: a line that is
      None or empty means a general alert. */
  predicate Wants(u: UserData, line: Option<string>) {
    if Truthy(line) then line.value in u.lines else General(u)
  }

  /** The chat ids of `ids` whose records want an alert for `line`, in the order of `ids`. */
  function Select(users: map<string, UserData>, ids: seq<string>, line: Option<string>): (r: seq<string>)
    ensures Subseq(r, ids)
    ensures forall id :: id in r <==> id in ids && id in users && Wants(users[id], line)
    decreases |ids|
  {
    if ids == [] then []
    else
      var id := ids[|ids| - 1];
      var rest := Select(users, ids[..|ids| - 1], line);
      assert ids == ids[..|ids| - 1] + [id];
      if id in users && Wants(users[id], line) then rest + [id] else rest
  }

  /** Extending the walked ids by one extends the selection by that id, or not at all. */
  lemma SelectStep(users: map<string, UserData>, ids: seq<string>, id: string, line: Option<string>)
    ensures Select(users, ids + [id], line)
            == Select(users, ids, line) + (if id in users && Wants(users[id], line) then [id] else [])
  {
    assert (ids + [id])[..|ids|] == ids;
  }

  /** The recipients of an alert for `line`: exactly the chat ids that want it, each once, in
      the order their records were created. */
  function RecipientsFor(t: Table, line: Option<string>): (r: seq<string>)
    requires WellFormed(t)
    ensures Subseq(r, t.order) && Distinct(r)
    ensures forall id :: id in r <==> id in t.users && Wants(t.users[id], line)
  {
    var r := Select(t.users, t.order, line);
    SubseqDistinct(r, t.order);
    r
  }

  /** Every line held by a record of `ids`. */
  function LinesOf(users: map<string, UserData>, ids: seq<string>): (r: set<string>)
    ensures forall l :: l in r <==> exists id :: id in ids && id in users && l in users[id].lines
    decreases |ids|
  {
    if ids == [] then {}
    else
      var id := ids[|ids| - 1];
      assert ids == ids[..|ids| - 1] + [id];
      LinesOf(users, ids[..|ids| - 1]) + (if id in users then set l | l in users[id].lines else {})
  }

  lemma LinesOfStep(users: map<string, UserData>, ids: seq<string>, id: string)
    ensures LinesOf(users, ids + [id])
            == LinesOf(users, ids) + (if id in users then set l | l in users[id].lines else {})
  {
    assert (ids + [id])[..|ids|] == ids;
  }

  /** The lines that at least one subscriber monitors. */
  function AllLines(t: Table): (r: set<string>)
    requires WellFormed(t)
    ensures forall l :: l in r <==> exists id :: id in t.users && l in t.users[id].lines
  {
    LinesOf(t.users, t.order)
  }

  /** How many records of `ids` hold `line`. */
  function CountHolders(users: map<string, UserData>, ids: seq<string>, line: string): (r: nat)
    ensures r <= |ids|
    ensures r > 0 <==> exists id :: id in ids && id in users && line in users[id].lines
    decreases |ids|
  {
    if ids == [] then 0
    else
      var id := ids[|ids| - 1];
      assert ids == ids[..|ids| - 1] + [id];
      CountHolders(users, ids[..|ids| - 1], line) + (if id in users && line in users[id].lines then 1 else 0)
  }

  /** How many records of `ids` take general alerts. */
  function CountGeneral(users: map<string, UserData>, ids: seq<string>): (r: nat)
    ensures r <= |ids|
    decreases |ids|
  {
    if ids == [] then 0
    else
      var id := ids[|ids| - 1];
      CountGeneral(users, ids[..|ids| - 1]) + (if id in users && General(users[id]) then 1 else 0)
  }

  /** The figures the store reports about itself. */
  datatype Stats = Stats(totalUsers: nat, monitoredLines: seq<string>,
                         lineCounts: map<string, nat>, generalAlertsUsers: nat)

  /** For each monitored line, how many subscribers hold it. */
  function LineCounts(t: Table): (m: map<string, nat>)
    requires WellFormed(t)
    ensures m.Keys == AllLines(t)
    ensures forall l :: l in m ==> m[l] == CountHolders(t.users, t.order, l)
    ensures forall l :: l in m ==> 1 <= m[l] <= |t.order|
  {
    var all := AllLines(t);
    assert forall l :: l in all ==> 1 <= CountHolders(t.users, t.order, l) by {
      forall l | l in all ensures 1 <= CountHolders(t.users, t.order, l) {
        var id :| id in t.users && l in t.users[id].lines;
        assert id in t.order;
      }
    }
    map l | l in all :: CountHolders(t.users, t.order, l)
  }

  function StatsOf(t: Table): (r: Stats)
    requires WellFormed(t)
    ensures r.totalUsers == |t.users| == |t.order|
    ensures Sorted(r.monitoredLines) && forall l :: l in r.monitoredLines <==> l in AllLines(t)
    ensures r.lineCounts.Keys == AllLines(t)
    ensures forall l :: l in r.lineCounts ==> 1 <= r.lineCounts[l] <= r.totalUsers
    ensures r.generalAlertsUsers <= r.totalUsers
  {
    TableSize(t);
    Stats(|t.users|, SortedSet(AllLines(t)), LineCounts(t), CountGeneral(t.users, t.order))
  }

  /** Counting holders of a line is counting the recipients of an alert for it. */
  lemma {:induction false} HoldersAreRecipients(users: map<string, UserData>, ids: seq<string>, line: string)
    requires line != ""
    ensures CountHolders(users, ids, line) == |Select(users, ids, Some(line))|
    decreases |ids|
  {
    if ids != [] {
      HoldersAreRecipients(users, ids[..|ids| - 1], line);
    }
  }

  /** Counting general-alert takers is counting the recipients of a general alert. */
  lemma {:induction false} GeneralAreRecipients(users: map<string, UserData>, ids: seq<string>)
    ensures CountGeneral(users, ids) == |Select(users, ids, None)|
    decreases |ids|
  {
    if ids != [] {
      GeneralAreRecipients(users, ids[..|ids| - 1]);
    }
  }

  /** Each per-line count in the statistics is the number of users an alert for that line
      reaches, and the general figure is the number a general alert reaches. */
  lemma StatsMatchRecipients(t: Table, line: string)
    requires WellFormed(t)
    requires line in StatsOf(t).lineCounts && line != ""
    ensures StatsOf(t).lineCounts[line] == |RecipientsFor(t, Some(line))|
    ensures StatsOf(t).generalAlertsUsers == |RecipientsFor(t, None)|
  {
    HoldersAreRecipients(t.users, t.order, line);
    GeneralAreRecipients(t.users, t.order);
  }

  /** Subscribing twice to the same line changes the table only the first time, and the line
      is then held exactly once. */
  lemma SubscribeTwice(t: Table, id: string, line: string)
    requires WellFormed(t) && line !in UserOf(t, id).lines
    ensures var (t1, first) := Subscribe(t, id, line);
            var (t2, second) := Subscribe(t1, id, line);
            first && !second && t2 == t1 && multiset(t2.users[id].lines)[line] == 1
  {
    SubscribeNoDuplicates(t, id, line);
  }

  /** After unsubscribing from every line a user still has a record, with no lines. */
  lemma UnsubscribeKeepsRecord(t: Table, id: string, line: string)
    requires WellFormed(t) && id in t.users && t.users[id].lines == [line]
    ensures var (t1, removed) := Unsubscribe(t, id, line);
            removed && id in t1.users && t1.users[id].lines == [] && |t1.users| == |t.users|
  {
    assert Unsubscribe(t, id, line).0.users.Keys == t.users.Keys;
  }

  // ---------------------------------------------------------------------------------------
  // The store object

  class SubscriptionManager {
    /** The records in memory. */
    var data: Table
    /** Every snapshot written to the subscriptions file, oldest first. */
    var saved: seq<Table>

    ghost predicate Valid()
      reads this
    {
      WellFormed(data)
    }

    /** Starts from what was read from the file; a missing or corrupt file gives `None`. */
    constructor (loaded: Option<Table>)
      requires loaded.Some? ==> WellFormed(loaded.value)
      ensures Valid() && data == loaded.GetOr(EmptyTable) && saved == []
    {
      data := loaded.GetOr(EmptyTable);
      saved := [];
    }

    /** The record of `chatId`, created (in memory only) when missing. */
    method GetUserData(chatId: string) returns (user: UserData)
      requires Valid()
      modifies this
      ensures Valid() && data == Touch(old(data), chatId) && user == UserOf(old(data), chatId)
      ensures saved == old(saved)
    {
      if chatId !in data.users {
        data := Table(data.order + [chatId], data.users[chatId := NewUser]);
      }
      user := data.users[chatId];
    }

    method SubscribeLine(chatId: string, line: string) returns (changed: bool)
      requires Valid()
      modifies this
      ensures Valid() && (data, changed) == Subscribe(old(data), chatId, line)
      ensures saved == old(saved) + (if changed then [data] else [])
    {
      var user := GetUserData(chatId);
      if line !in user.lines {
        data := data.(users := data.users[chatId := user.(lines := user.lines + [line])]);
        saved := saved + [data];
        return true;
      }
      return false;
    }

    method UnsubscribeLine(chatId: string, line: string) returns (changed: bool)
      requires Valid()
      modifies this
      ensures Valid() && (data, changed) == Unsubscribe(old(data), chatId, line)
      ensures saved == old(saved) + (if changed then [data] else [])
    {
      var user := GetUserData(chatId);
      if line in user.lines {
        data := data.(users := data.users[chatId := user.(lines := RemoveFirst(user.lines, line))]);
        saved := saved + [data];
        return true;
      }
      return false;
    }

    method GetSubscribedLines(chatId: string) returns (lines: seq<string>)
      requires Valid()
      modifies this
      ensures Valid() && data == Touch(old(data), chatId) && lines == UserOf(old(data), chatId).lines
      ensures saved == old(saved)
    {
      var user := GetUserData(chatId);
      lines := user.lines;
    }

    method SetReceiveGeneral(chatId: string, receive: bool)
      requires Valid()
      modifies this
      ensures Valid() && data == SetGeneral(old(data), chatId, receive)
      ensures saved == old(saved) + [data]
    {
      var user := GetUserData(chatId);
      data := data.(users := data.users[chatId := user.(receiveGeneral := Some(receive))]);
      saved := saved + [data];
    }

    method GetReceiveGeneral(chatId: string) returns (receive: bool)
      requires Valid()
      modifies this
      ensures Valid() && data == Touch(old(data), chatId)
      ensures receive == General(UserOf(old(data), chatId))
      ensures saved == old(saved)
    {
      var user := GetUserData(chatId);
      receive := user.receiveGeneral.GetOr(true);
    }

    /** Walks the records in insertion order and collects those that want the alert. */
    method GetUsersForAlert(line: Option<string>) returns (recipients: seq<string>)
      requires Valid()
      ensures recipients == RecipientsFor(data, line)
    {
      recipients := [];
      assert data.order[..0] == [];
      for i := 0 to |data.order|
        invariant recipients == Select(data.users, data.order[..i], line)
      {
        var chatId := data.order[i];
        var user := data.users[chatId];
        ghost var before := recipients;
        if Truthy(line) {
          if line.value in user.lines {
            recipients := recipients + [chatId];
          }
        } else {
          if user.receiveGeneral.GetOr(true) {
            recipients := recipients + [chatId];
          }
        }
        assert recipients == Select(data.users, data.order[..i + 1], line) by {
          assert recipients == before + (if Wants(user, line) then [chatId] else []);
          assert data.order[..i + 1] == data.order[..i] + [chatId];
          SelectStep(data.users, data.order[..i], chatId, line);
        }
      }
      assert data.order[..|data.order|] == data.order;
    }

    method GetAllMonitoredLines() returns (lines: set<string>)
      requires Valid()
      ensures lines == AllLines(data)
    {
      lines := {};
      var i := 0;
      while i < |data.order|
        invariant 0 <= i <= |data.order|
        invariant lines == LinesOf(data.users, data.order[..i])
      {
        var user := data.users[data.order[i]];
        assert data.order[..i + 1] == data.order[..i] + [data.order[i]];
        LinesOfStep(data.users, data.order[..i], data.order[i]);
        lines := lines + set l | l in user.lines;
        i := i + 1;
      }
      assert data.order[..i] == data.order;
    }

    method GetStats() returns (stats: Stats)
      requires Valid()
      ensures stats == StatsOf(data)
    {
      var totalUsers := |data.users|;
      var allLines := GetAllMonitoredLines();
      var lineCounts: map<string, nat> := map[];
      var rest := allLines;
      while rest != {}
        invariant rest <= allLines
        invariant lineCounts.Keys == allLines - rest
        invariant forall l :: l in lineCounts ==> lineCounts[l] == CountHolders(data.users, data.order, l)
        decreases rest
      {
        var line :| line in rest;
        lineCounts := lineCounts[line := CountHolders(data.users, data.order, line)];
        rest := rest - {line};
      }
      var generalUsers := CountGeneral(data.users, data.order);
      assert lineCounts == LineCounts(data) by {
        ghost var expected := LineCounts(data);
        assert lineCounts.Keys == expected.Keys;
        assert forall l :: l in lineCounts ==> lineCounts[l] == expected[l];
      }
      stats := Stats(totalUsers, SortedSet(allLines), lineCounts, generalUsers);
    }
  }
}
