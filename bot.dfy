/** The Telegram command layer: each incoming message is split into a command and an argument,
    routed to a handler that may change the subscription store and queues one reply; a batch
    of updates advances the offset past every update, also past one whose processing raised. */
module Bot {
  import opened Common
  import opened Text
  import opened Subscriptions

  /** The sender of a message: its chat id (already turned into a string) and first name. */
  datatype Chat = Chat(id: string, firstName: Option<string>)

  /** A message of an update; `chat` is None when the message has no chat and `text` is None
      when it has no text. */
  datatype Message = Message(chat: Option<Chat>, text: Option<string>)

  /** An update of the batch; `updateId` is None when the update lacks one. */
  datatype Update = Update(updateId: Option<int>, message: Option<Message>)

  /** What a reply says; the wording of the texts is not modelled. */
  datatype Reply =
    | Welcome(name: string)
    | SubscribeUsage
    | Subscribed(line: string)
    | AlreadySubscribed(line: string)
    | UnsubscribeUsage
    | Unsubscribed(line: string)
    | NotSubscribed(line: string)
    | MyLines(lines: seq<string>, general: bool)
    | GeneralUsage
    | GeneralOn
    | GeneralOff
    | Help
    | StatsReport(stats: Stats)
    | Unrecognized(command: string)

  /** A message sent to a chat. */
  datatype Outgoing = Outgoing(chatId: string, reply: Reply)

  /** What handling one message does: it raises before doing anything, or it yields the new
      table, the snapshots it saved and the replies it sent. */
  datatype Outcome =
    | Raised
    | Handled(table: Table, saves: seq<Table>, sent: seq<Outgoing>)

  /** Everything the bot has done so far: the current table, every snapshot saved and every
      message sent. */
  datatype BotState = BotState(table: Table, saves: seq<Table>, sent: seq<Outgoing>)

  /** The state after an outcome: a raised message leaves it as it was. */
  function Then(s: BotState, o: Outcome): (r: BotState)
    ensures o.Raised? ==> r == s
    ensures o.Handled? ==> r.table == o.table && r.saves == s.saves + o.saves && r.sent == s.sent + o.sent
  {
    match o
    case Raised => s
    case Handled(t, saves, sent) => BotState(t, s.saves + saves, s.sent + sent)
  }

  // ---------------------------------------------------------------------------------------
  // `text.split(maxsplit=1)`

  /** The first position at or after `i` that is not whitespace, or the end. */
  function SkipSpace(s: string, i: nat): (k: nat)
    requires i <= |s|
    ensures i <= k <= |s| && (k == |s| || !IsSpace(s[k]))
    ensures forall p :: i <= p < k ==> IsSpace(s[p])
    decreases |s| - i
  {
    if i < |s| && IsSpace(s[i]) then SkipSpace(s, i + 1) else i
  }

  /** The first position at or after `i` that is whitespace, or the end. */
  function SkipWord(s: string, i: nat): (k: nat)
    requires i <= |s|
    ensures i <= k <= |s| && (k == |s| || IsSpace(s[k]))
    ensures forall p :: i <= p < k ==> !IsSpace(s[p])
    decreases |s| - i
  {
    if i < |s| && !IsSpace(s[i]) then SkipWord(s, i + 1) else i
  }

  /** `text.split(maxsplit=1)` as the first token and the remainder (empty when there is
      none); None when the text is all whitespace, where the source's `parts[0]` raises. The
      remainder keeps any trailing whitespace. */
  function SplitCommand(text: string): (r: Option<(string, string)>)
    ensures r.None? <==> AllSpace(text)
    ensures r.Some? ==> r.value.0 != [] && NoSpace(r.value.0)
    ensures r.Some? ==> r.value.1 == [] || !IsSpace(r.value.1[0])
  {
    var i := SkipSpace(text, 0);
    if i == |text| then None
    else
      var j := SkipWord(text, i);
      var k := SkipSpace(text, j);
      assert forall p :: 0 <= p < j - i ==> text[i..j][p] == text[i + p];
      Some((text[i..j], text[k..]))
  }

  /** `SkipSpace` stops exactly at the end of a whitespace run. */
  lemma SkipSpaceAt(s: string, i: nat, k: nat)
    requires i <= k <= |s|
    requires forall p :: i <= p < k ==> IsSpace(s[p])
    requires k == |s| || !IsSpace(s[k])
    ensures SkipSpace(s, i) == k
  {
  }

  /** `SkipWord` stops exactly at the end of a run without whitespace. */
  lemma SkipWordAt(s: string, i: nat, k: nat)
    requires i <= k <= |s|
    requires forall p :: i <= p < k ==> !IsSpace(s[p])
    requires k == |s| || IsSpace(s[k])
    ensures SkipWord(s, i) == k
  {
  }

  /** Splitting recovers the parts of a message built from optional leading whitespace, a
      command, a run of whitespace and an argument that starts with a non-space character. */
  lemma SplitRoundTrip(lead: string, command: string, sep: string, arg: string)
    requires AllSpace(lead) && AllSpace(sep)
    requires command != [] && NoSpace(command)
    requires arg == [] || (sep != [] && !IsSpace(arg[0]))
    ensures SplitCommand(lead + command + sep + arg) == Some((command, arg))
  {
    var text := lead + command + sep + arg;
    var i := |lead|;
    var j := i + |command|;
    var k := j + |sep|;
    assert forall p :: 0 <= p < i ==> text[p] == lead[p];
    assert forall p :: i <= p < j ==> text[p] == command[p - i];
    assert forall p :: j <= p < k ==> text[p] == sep[p - j];
    assert forall p :: k <= p < |text| ==> text[p] == arg[p - k];
    SkipSpaceAt(text, 0, i);
    if sep == [] {
      assert arg == [];
      SkipWordAt(text, i, j);
    } else {
      SkipWordAt(text, i, j);
    }
    SkipSpaceAt(text, j, k);
    assert text[i..j] == command;
    assert text[k..] == arg;
  }

  /** Conversely, a text that splits is leading whitespace, the command, whitespace and the
      argument, in that order. */
  lemma SplitDecomposes(text: string)
    requires SplitCommand(text).Some?
    ensures exists lead, sep :: AllSpace(lead) && AllSpace(sep)
              && text == lead + SplitCommand(text).value.0 + sep + SplitCommand(text).value.1
  {
    var i := SkipSpace(text, 0);
    var j := SkipWord(text, i);
    var k := SkipSpace(text, j);
    var command, arg := SplitCommand(text).value.0, SplitCommand(text).value.1;
    assert command == text[i..j] && arg == text[k..];
    var lead, sep := text[..i], text[j..k];
    assert AllSpace(lead) by {
      assert forall p :: 0 <= p < |lead| ==> lead[p] == text[p];
    }
    assert AllSpace(sep) by {
      assert forall p :: 0 <= p < |sep| ==> sep[p] == text[j + p];
    }
    SliceFour(text, i, j, k);
  }

  /** Cutting a text at three positions and joining the pieces gives the text back. */
  lemma SliceFour(s: string, i: nat, j: nat, k: nat)
    requires i <= j <= k <= |s|
    ensures s == s[..i] + s[i..j] + s[j..k] + s[k..]
  {
    assert s[j..] == s[j..k] + s[k..];
    assert s[i..] == s[i..j] + s[j..];
    assert s == s[..i] + s[i..];
  }

  // ---------------------------------------------------------------------------------------
  // Routing

  datatype Command =
    | StartCmd
    | SubscribeCmd
    | UnsubscribeCmd
    | MyLinesCmd
    | GeneralCmd
    | HelpCmd
    | StatsCmd
    | Unknown(name: string)

  /** The commands the bot understands, aliases included. */
  const KnownCommands: set<string> :=
    {"/start", "/suscribir", "/desuscribir", "/mis_lineas", "/mislineas", "/alertas_generales",
     "/alertasgenerales", "/ayuda", "/help", "/stats"}

  /** The handler a lowercased command selects. */
  function Route(command: string): (r: Command)
    ensures r.Unknown? <==> command !in KnownCommands
    ensures r.Unknown? ==> r.name == command
    ensures r == MyLinesCmd <==> command == "/mis_lineas" || command == "/mislineas"
    ensures r == GeneralCmd <==> command == "/alertas_generales" || command == "/alertasgenerales"
    ensures r == HelpCmd <==> command == "/ayuda" || command == "/help"
  {
    if command == "/start" then StartCmd
    else if command == "/suscribir" then SubscribeCmd
    else if command == "/desuscribir" then UnsubscribeCmd
    else if command == "/mis_lineas" || command == "/mislineas" then MyLinesCmd
    else if command == "/alertas_generales" || command == "/alertasgenerales" then GeneralCmd
    else if command == "/ayuda" || command == "/help" then HelpCmd
    else if command == "/stats" then StatsCmd
    else Unknown(command)
  }

  // ---------------------------------------------------------------------------------------
  // Handlers, as functions of the table

  /** `/suscribir line`: an empty line only earns the usage reply; otherwise the line is added
      unless present, the store is saved if it was, and the reply says which happened. */
  function SubscribeCommand(t: Table, chatId: string, line: string): (r: Outcome)
    requires WellFormed(t)
    ensures r.Handled? && WellFormed(r.table) && |r.sent| == 1 && r.sent[0].chatId == chatId
    ensures line == "" ==> r.table == t && r.saves == [] && r.sent[0].reply == SubscribeUsage
    ensures line != "" ==> r.table == Subscribe(t, chatId, line).0
    ensures line != "" ==> OnlyTouches(t, r.table, chatId) && chatId in r.table.users
    ensures line != "" ==> line in r.table.users[chatId].lines
    ensures line != "" && line !in UserOf(t, chatId).lines ==>
              r.saves == [r.table] && r.sent[0].reply == Subscribed(line)
    ensures line != "" && line in UserOf(t, chatId).lines ==>
              r.table == t && r.saves == [] && r.sent[0].reply == AlreadySubscribed(line)
  {
    if line == "" then Handled(t, [], [Outgoing(chatId, SubscribeUsage)])
    else
      var (t1, changed) := Subscribe(t, chatId, line);
      if changed then Handled(t1, [t1], [Outgoing(chatId, Subscribed(line))])
      else Handled(t1, [], [Outgoing(chatId, AlreadySubscribed(line))])
  }

  /** `/desuscribir line`: an empty line only earns the usage reply; otherwise the line is
      removed if present, the store is saved if it was, and the reply says which happened. */
  function UnsubscribeCommand(t: Table, chatId: string, line: string): (r: Outcome)
    requires WellFormed(t)
    ensures r.Handled? && WellFormed(r.table) && |r.sent| == 1 && r.sent[0].chatId == chatId
    ensures line == "" ==> r.table == t && r.saves == [] && r.sent[0].reply == UnsubscribeUsage
    ensures line != "" ==> r.table == Unsubscribe(t, chatId, line).0
    ensures line != "" ==> OnlyTouches(t, r.table, chatId) && chatId in r.table.users
    ensures line != "" && Distinct(UserOf(t, chatId).lines) ==> line !in r.table.users[chatId].lines
    ensures line != "" && line in UserOf(t, chatId).lines ==>
              r.saves == [r.table] && r.sent[0].reply == Unsubscribed(line)
    ensures line != "" && line !in UserOf(t, chatId).lines ==>
              r.table == Touch(t, chatId) && r.saves == [] && r.sent[0].reply == NotSubscribed(line)
  {
    if line == "" then Handled(t, [], [Outgoing(chatId, UnsubscribeUsage)])
    else
      var (t1, changed) := Unsubscribe(t, chatId, line);
      if changed then Handled(t1, [t1], [Outgoing(chatId, Unsubscribed(line))])
      else Handled(t1, [], [Outgoing(chatId, NotSubscribed(line))])
  }

  /** `/alertas_generales setting`: only `on` or `off`, in any case, are accepted; they set the
      flag to true or false and save the store, anything else only earns the usage reply. */
  function GeneralCommand(t: Table, chatId: string, setting: string): (r: Outcome)
    requires WellFormed(t)
    ensures r.Handled? && WellFormed(r.table) && |r.sent| == 1 && r.sent[0].chatId == chatId
    ensures Lower(setting) != "on" && Lower(setting) != "off" ==>
              r.table == t && r.saves == [] && r.sent[0].reply == GeneralUsage
    ensures Lower(setting) == "on" ==>
              r.table == SetGeneral(t, chatId, true) && r.saves == [r.table] && r.sent[0].reply == GeneralOn
    ensures Lower(setting) == "off" ==>
              r.table == SetGeneral(t, chatId, false) && r.saves == [r.table] && r.sent[0].reply == GeneralOff
  {
    if setting == "" || (Lower(setting) != "on" && Lower(setting) != "off") then
      Handled(t, [], [Outgoing(chatId, GeneralUsage)])
    else
      var receive := Lower(setting) == "on";
      var t1 := SetGeneral(t, chatId, receive);
      Handled(t1, [t1], [Outgoing(chatId, if receive then GeneralOn else GeneralOff)])
  }

  /** `/mis_lineas`: both queries create the record when missing; nothing is saved. */
  function MyLinesCommand(t: Table, chatId: string): (r: Outcome)
    requires WellFormed(t)
    ensures r.Handled? && r.table == Touch(t, chatId) && r.saves == []
    ensures r.sent == [Outgoing(chatId, MyLines(UserOf(t, chatId).lines, General(UserOf(t, chatId))))]
  {
    var t1 := Touch(t, chatId);
    var lines := UserOf(t, chatId).lines;
    var t2 := Touch(t1, chatId);
    Handled(t2, [], [Outgoing(chatId, MyLines(lines, General(UserOf(t1, chatId))))])
  }

  /** The command dispatch of `process_message`, on the lowercased command. */
  function CommandEffect(t: Table, chat: Chat, command: string, args: string): (r: Outcome)
    requires WellFormed(t)
    ensures r.Handled? && WellFormed(r.table) && |r.sent| == 1 && r.sent[0].chatId == chat.id
    ensures command !in KnownCommands ==> r == Handled(t, [], [Outgoing(chat.id, Unrecognized(command))])
    ensures command in {"/start", "/ayuda", "/help", "/stats"} ==> r.table == t && r.saves == []
  {
    match Route(command)
    case StartCmd => Handled(t, [], [Outgoing(chat.id, Welcome(chat.firstName.GetOr("Usuario")))])
    case SubscribeCmd => SubscribeCommand(t, chat.id, args)
    case UnsubscribeCmd => UnsubscribeCommand(t, chat.id, args)
    case MyLinesCmd => MyLinesCommand(t, chat.id)
    case GeneralCmd => GeneralCommand(t, chat.id, args)
    case HelpCmd => Handled(t, [], [Outgoing(chat.id, Help)])
    case StatsCmd => Handled(t, [], [Outgoing(chat.id, StatsReport(StatsOf(t)))])
    case Unknown(c) => Handled(t, [], [Outgoing(chat.id, Unrecognized(c))])
  }

  /** `process_message`: a message without a chat raises, an empty or missing text is ignored,
      an all-whitespace text raises, and anything else is dispatched on its lowercased first
      token. */
  function MessageEffect(t: Table, m: Message): (r: Outcome)
    requires WellFormed(t)
    ensures m.chat.None? ==> r.Raised?
    ensures m.chat.Some? && m.text.GetOr("") == "" ==> r == Handled(t, [], [])
    ensures m.chat.Some? ==> (r.Raised? <==> m.text.GetOr("") != "" && AllSpace(m.text.GetOr("")))
    ensures r.Handled? ==> WellFormed(r.table) && |r.sent| <= 1
  {
    match m.chat
    case None => Raised
    case Some(chat) =>
      var text := m.text.GetOr("");
      if text == "" then Handled(t, [], [])
      else
        match SplitCommand(text)
        case None => Raised
        case Some((command, args)) => CommandEffect(t, chat, Lower(command), args)
  }

  /** The effect of one update of a batch: an update without an id raises before its message
      is looked at, and one without a message, or whose message raises, changes nothing. */
  function UpdateEffect(s: BotState, u: Update): (r: BotState)
    requires WellFormed(s.table)
    ensures WellFormed(r.table)
    ensures u.updateId.None? || u.message.None? ==> r == s
    ensures u.updateId.Some? && u.message.Some? ==> r == Then(s, MessageEffect(s.table, u.message.value))
  {
    if u.updateId.None? then s
    else
      match u.message
      case None => s
      case Some(m) => Then(s, MessageEffect(s.table, m))
  }

  /** The updates of a batch handled one after the other. */
  function UpdatesEffect(s: BotState, updates: seq<Update>): (r: BotState)
    requires WellFormed(s.table)
    ensures WellFormed(r.table)
    ensures |r.sent| <= |s.sent| + |updates|
    decreases |updates|
  {
    if updates == [] then s
    else UpdateEffect(UpdatesEffect(s, updates[..|updates| - 1]), updates[|updates| - 1])
  }

  /** The offset after a batch: an update with an id moves it just past that id; one without
      an id raises before the offset is set and leaves it as it was. */
  function OffsetAfter(offset: int, updates: seq<Update>): (r: int)
    ensures updates != [] && updates[|updates| - 1].updateId.Some? ==>
              r == updates[|updates| - 1].updateId.value + 1
    ensures (forall k :: 0 <= k < |updates| ==> updates[k].updateId.None?) ==> r == offset
    decreases |updates|
  {
    if updates == [] then offset
    else
      var init := updates[..|updates| - 1];
      assert forall k :: 0 <= k < |init| ==> init[k] == updates[k];
      match updates[|updates| - 1].updateId
      case Some(id) => id + 1
      case None => OffsetAfter(offset, init)
  }

  /** The offset after a batch is one past the id of the last update that has one. */
  lemma {:induction false} OffsetFromLastId(offset: int, updates: seq<Update>, k: nat)
    requires k < |updates| && updates[k].updateId.Some?
    requires forall j :: k < j < |updates| ==> updates[j].updateId.None?
    ensures OffsetAfter(offset, updates) == updates[k].updateId.value + 1
    decreases |updates|
  {
    if k < |updates| - 1 {
      var init := updates[..|updates| - 1];
      assert init[k] == updates[k];
      assert forall j :: k < j < |init| ==> init[j] == updates[j];
      OffsetFromLastId(offset, init, k);
    }
  }

  lemma OffsetStep(offset: int, updates: seq<Update>, u: Update)
    ensures OffsetAfter(offset, updates + [u]) == if u.updateId.Some? then u.updateId.value + 1 else OffsetAfter(offset, updates)
  {
    assert (updates + [u])[..|updates|] == updates;
  }

  lemma UpdatesStep(s: BotState, updates: seq<Update>, u: Update)
    requires WellFormed(s.table)
    ensures UpdatesEffect(s, updates + [u]) == UpdateEffect(UpdatesEffect(s, updates), u)
  {
    assert (updates + [u])[..|updates|] == updates;
  }

  /** Handling a batch in two stretches is handling it in one. */
  lemma {:induction false} UpdatesAppend(s: BotState, first: seq<Update>, second: seq<Update>)
    requires WellFormed(s.table)
    ensures UpdatesEffect(s, first + second) == UpdatesEffect(UpdatesEffect(s, first), second)
    decreases |second|
  {
    if second == [] {
      assert first + second == first;
    } else {
      var init := second[..|second| - 1];
      var last := second[|second| - 1];
      assert first + second == (first + init) + [last];
      UpdatesAppend(s, first, init);
      UpdatesStep(s, first + init, last);
      UpdatesStep(UpdatesEffect(s, first), init, last);
      assert second == init + [last];
    }
  }

  // ---------------------------------------------------------------------------------------
  // Properties of the command layer

  /** The command is the first token, lowercased, and the argument is the rest of the text:
      `/SUSCRIBIR 11` does what `/suscribir 11` does. */
  lemma CommandFromText(t: Table, chat: Chat, command: string, sep: string, arg: string)
    requires WellFormed(t)
    requires command != [] && NoSpace(command) && AllSpace(sep)
    requires arg == [] || (sep != [] && !IsSpace(arg[0]))
    ensures MessageEffect(t, Message(Some(chat), Some(command + sep + arg)))
            == CommandEffect(t, chat, Lower(command), arg)
  {
    SplitRoundTrip([], command, sep, arg);
    assert [] + command + sep + arg == command + sep + arg;
  }

  /** The aliases of a command reach the same handler. */
  lemma AliasesAgree(t: Table, chat: Chat, args: string)
    requires WellFormed(t)
    ensures CommandEffect(t, chat, "/mis_lineas", args) == CommandEffect(t, chat, "/mislineas", args)
    ensures CommandEffect(t, chat, "/alertas_generales", args) == CommandEffect(t, chat, "/alertasgenerales", args)
    ensures CommandEffect(t, chat, "/ayuda", args) == CommandEffect(t, chat, "/help", args)
  {
    assert Route("/mis_lineas") == Route("/mislineas");
    assert Route("/alertas_generales") == Route("/alertasgenerales");
    assert Route("/ayuda") == Route("/help");
  }

  /** An update without an id or without a message, or whose message raises, is skipped: the
      batch does exactly what it would do without it. */
  lemma PoisonUpdateSkipped(s: BotState, before: seq<Update>, u: Update, after: seq<Update>)
    requires WellFormed(s.table)
    requires u.updateId.None? || u.message.None? || MessageEffect(UpdatesEffect(s, before).table, u.message.value).Raised?
    ensures UpdatesEffect(s, before + [u] + after) == UpdatesEffect(s, before + after)
  {
    UpdatesAppend(s, before + [u], after);
    UpdatesStep(s, before, u);
    UpdatesAppend(s, before, after);
  }

  // ---------------------------------------------------------------------------------------
  // The bot object

  class TelegramBot {
    const subscriptions: SubscriptionManager
    /** The id of the next update to ask for. */
    var offset: int
    /** Every message sent, oldest first. */
    var outbox: seq<Outgoing>
    /** Every value written to the offset file, oldest first. */
    var savedOffsets: seq<int>

    ghost predicate Valid()
      reads this, subscriptions
    {
      subscriptions.Valid()
    }

    /** The bot's history as the specification functions see it. */
    ghost function State(): BotState
      reads this, subscriptions
    {
      BotState(subscriptions.data, subscriptions.saved, outbox)
    }

    /** Starts with the store and the offset read from its file; a missing or unreadable file
      gives 0. */
    constructor (manager: SubscriptionManager, storedOffset: Option<int>)
      requires manager.Valid()
      ensures Valid() && subscriptions == manager
      ensures offset == storedOffset.GetOr(0) && outbox == [] && savedOffsets == []
    {
      subscriptions := manager;
      offset := storedOffset.GetOr(0);
      outbox := [];
      savedOffsets := [];
    }

    method SendMessage(chatId: string, reply: Reply)
      modifies this
      ensures outbox == old(outbox) + [Outgoing(chatId, reply)]
      ensures offset == old(offset) && savedOffsets == old(savedOffsets)
    {
      outbox := outbox + [Outgoing(chatId, reply)];
    }

    method HandleSubscribe(chatId: string, line: string)
      requires Valid()
      modifies this, subscriptions
      ensures Valid() && State() == Then(old(State()), SubscribeCommand(old(subscriptions.data), chatId, line))
      ensures offset == old(offset) && savedOffsets == old(savedOffsets)
    {
      if line == "" {
        SendMessage(chatId, SubscribeUsage);
        return;
      }
      var success := subscriptions.SubscribeLine(chatId, line);
      if success {
        SendMessage(chatId, Subscribed(line));
      } else {
        SendMessage(chatId, AlreadySubscribed(line));
      }
    }

    method HandleUnsubscribe(chatId: string, line: string)
      requires Valid()
      modifies this, subscriptions
      ensures Valid() && State() == Then(old(State()), UnsubscribeCommand(old(subscriptions.data), chatId, line))
      ensures offset == old(offset) && savedOffsets == old(savedOffsets)
    {
      if line == "" {
        SendMessage(chatId, UnsubscribeUsage);
        return;
      }
      var success := subscriptions.UnsubscribeLine(chatId, line);
      if success {
        SendMessage(chatId, Unsubscribed(line));
      } else {
        SendMessage(chatId, NotSubscribed(line));
      }
    }

    method HandleMyLines(chatId: string)
      requires Valid()
      modifies this, subscriptions
      ensures Valid() && State() == Then(old(State()), MyLinesCommand(old(subscriptions.data), chatId))
      ensures offset == old(offset) && savedOffsets == old(savedOffsets)
    {
      var lines := subscriptions.GetSubscribedLines(chatId);
      var receiveGeneral := subscriptions.GetReceiveGeneral(chatId);
      SendMessage(chatId, MyLines(lines, receiveGeneral));
    }

    method HandleGeneralAlerts(chatId: string, setting: string)
      requires Valid()
      modifies this, subscriptions
      ensures Valid() && State() == Then(old(State()), GeneralCommand(old(subscriptions.data), chatId, setting))
      ensures offset == old(offset) && savedOffsets == old(savedOffsets)
    {
      if setting == "" || (Lower(setting) != "on" && Lower(setting) != "off") {
        SendMessage(chatId, GeneralUsage);
        return;
      }
      var receive := Lower(setting) == "on";
      subscriptions.SetReceiveGeneral(chatId, receive);
      if receive {
        SendMessage(chatId, GeneralOn);
      } else {
        SendMessage(chatId, GeneralOff);
      }
    }

    method HandleStats(chatId: string)
      requires Valid()
      modifies this
      ensures outbox == old(outbox) + [Outgoing(chatId, StatsReport(StatsOf(subscriptions.data)))]
      ensures offset == old(offset) && savedOffsets == old(savedOffsets)
    {
      var stats := subscriptions.GetStats();
      SendMessage(chatId, StatsReport(stats));
    }

    /** `process_message`; `raised` says whether it raised, in which case nothing changed. */
    method ProcessMessage(message: Message) returns (raised: bool)
      requires Valid()
      modifies this, subscriptions
      ensures Valid() && State() == Then(old(State()), MessageEffect(old(subscriptions.data), message))
      ensures raised <==> MessageEffect(old(subscriptions.data), message).Raised?
      ensures offset == old(offset) && savedOffsets == old(savedOffsets)
    {
      if message.chat.None? {
        return true;
      }
      var chat := message.chat.value;
      var chatId := chat.id;
      var username := chat.firstName.GetOr("Usuario");
      var text := message.text.GetOr("");
      if text == "" {
        return false;
      }
      var parts := SplitCommand(text);
      if parts.None? {
        return true;
      }
      var command := Lower(parts.value.0);
      var args := parts.value.1;
      raised := false;
      if command == "/start" {
        SendMessage(chatId, Welcome(username));
      } else if command == "/suscribir" {
        HandleSubscribe(chatId, args);
      } else if command == "/desuscribir" {
        HandleUnsubscribe(chatId, args);
      } else if command == "/mis_lineas" || command == "/mislineas" {
        HandleMyLines(chatId);
      } else if command == "/alertas_generales" || command == "/alertasgenerales" {
        HandleGeneralAlerts(chatId, args);
      } else if command == "/ayuda" || command == "/help" {
        SendMessage(chatId, Help);
      } else if command == "/stats" {
        HandleStats(chatId);
      } else {
        SendMessage(chatId, Unrecognized(command));
      }
    }

    /** `process_updates` on the batch `get_updates` returned: each update with an id moves the
      offset past itself before its message is handled, so a message that raises is still
      consumed; an update without an id raises at once and is skipped; the offset is saved once
      at the end, and an empty batch changes and saves nothing. */
    method ProcessUpdates(updates: seq<Update>)
      requires Valid()
      modifies this, subscriptions
      ensures Valid() && State() == UpdatesEffect(old(State()), updates)
      ensures offset == OffsetAfter(old(offset), updates)
      ensures updates != [] && updates[|updates| - 1].updateId.Some? ==>
                offset == updates[|updates| - 1].updateId.value + 1
      ensures updates == [] ==> savedOffsets == old(savedOffsets)
      ensures updates != [] ==> savedOffsets == old(savedOffsets) + [offset]
    {
      if updates == [] {
        return;
      }
      var i := 0;
      while i < |updates|
        invariant 0 <= i <= |updates|
        invariant Valid() && State() == UpdatesEffect(old(State()), updates[..i])
        invariant offset == OffsetAfter(old(offset), updates[..i])
        invariant savedOffsets == old(savedOffsets)
      {
        var update := updates[i];
        UpdatesStep(old(State()), updates[..i], update);
        OffsetStep(old(offset), updates[..i], update);
        assert updates[..i + 1] == updates[..i] + [update];
        if update.updateId.Some? {
          offset := update.updateId.value + 1;
          if update.message.Some? {
            var _ := ProcessMessage(update.message.value);
          }
        }
        i := i + 1;
      }
      assert updates[..i] == updates;
      savedOffsets := savedOffsets + [offset];
    }
  }
}
