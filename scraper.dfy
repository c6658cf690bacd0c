/** One run of the alert monitor: turn the links of the news page into alerts, keep those some
    subscriber follows, find those not seen in the previous run, send them oldest first and
    replace the history with what is monitored now. */
module Scraper {
  import opened Common
  import opened Text
  import opened Subscriptions

  /** One notice of the transit operator. `line` is None for a general notice. */
  datatype Alert = Alert(code: string, title: string, line: Option<string>, url: string)

  /** An anchor of the news page: its `href` and its stripped text. */
  datatype Link = Link(href: string, text: string)

  /** The history file: when it was written and the alerts it holds. */
  datatype History = History(lastCheck: Option<string>, alerts: seq<Alert>)

  /** What a missing or unreadable history file yields. */
  const EmptyHistory := History(None, [])

  const SiteRoot := "https://tmpmurcia.es/"
  const DetailMarker := "Cuerpo.asp?codigo="
  const CodeKey := "codigo="

  // ---------------------------------------------------------------------------------------
  // The line number: `Línea`, whitespace, digits, searched case-insensitively

  /** The five letters of `Línea` start at `i`, each in either case. */
  predicate KeywordAt(text: string, i: nat) {
    && i + 5 <= |text|
    && (text[i] == 'l' || text[i] == 'L')
    && (text[i + 1] == '\U{ED}' || text[i + 1] == '\U{CD}')
    && (text[i + 2] == 'n' || text[i + 2] == 'N')
    && (text[i + 3] == 'e' || text[i + 3] == 'E')
    && (text[i + 4] == 'a' || text[i + 4] == 'A')
  }

  /** At `i` the text reads the keyword, `w >= 1` whitespace characters and then `d`, a digit
      run that no further digit follows. */
  predicate MatchesWith(text: string, i: nat, w: nat, d: string) {
    && KeywordAt(text, i) && 1 <= w && d != []
    && i + 5 + w + |d| <= |text|
    && (forall p :: i + 5 <= p < i + 5 + w ==> IsSpace(text[p]))
    && text[i + 5 + w..i + 5 + w + |d|] == d && AllDigits(d)
    && (i + 5 + w + |d| == |text| || !IsDigit(text[i + 5 + w + |d|]))
  }

  /** The end of the whitespace run that starts at `j`. */
  function SpaceEnd(text: string, j: nat): (k: nat)
    requires j <= |text|
    ensures j <= k <= |text| && (k == |text| || !IsSpace(text[k]))
    decreases |text| - j
  {
    if j < |text| && IsSpace(text[j]) then SpaceEnd(text, j + 1) else j
  }

  /** Everything `SpaceEnd` skips is whitespace. */
  lemma {:induction false} SpaceRun(text: string, j: nat)
    requires j <= |text|
    ensures forall p :: j <= p < SpaceEnd(text, j) ==> IsSpace(text[p])
    decreases |text| - j
  {
    if j < |text| && IsSpace(text[j]) {
      SpaceRun(text, j + 1);
    }
  }

  /** The end of the digit run that starts at `j`. */
  function DigitEnd(text: string, j: nat): (k: nat)
    requires j <= |text|
    ensures j <= k <= |text| && (k == |text| || !IsDigit(text[k]))
    decreases |text| - j
  {
    if j < |text| && IsDigit(text[j]) then DigitEnd(text, j + 1) else j
  }

  /** Everything `DigitEnd` skips is a digit. */
  lemma {:induction false} DigitRun(text: string, j: nat)
    requires j <= |text|
    ensures forall p :: j <= p < DigitEnd(text, j) ==> IsDigit(text[p])
    decreases |text| - j
  {
    if j < |text| && IsDigit(text[j]) {
      DigitRun(text, j + 1);
    }
  }

  /** The pattern tried at one position: the digits matched there, if it matches there. */
  function MatchAt(text: string, i: nat): (r: Option<string>)
    requires i <= |text|
    ensures r.Some? ==> r.value != [] && AllDigits(r.value)
  {
    if !KeywordAt(text, i) then None
    else
      var k := SpaceEnd(text, i + 5);
      var m := DigitEnd(text, k);
      if k == i + 5 || m == k then None
      else
        DigitRun(text, k);
        assert forall p :: 0 <= p < m - k ==> text[k..m][p] == text[k + p];
        Some(text[k..m])
  }

  /** `MatchAt` is the regular expression at one position: it returns exactly the digit runs
      that a match starting there can capture. */
  lemma MatchAtCorrect(text: string, i: nat)
    requires i <= |text|
    ensures MatchAt(text, i).Some? ==> exists w: nat :: MatchesWith(text, i, w, MatchAt(text, i).value)
    ensures forall w: nat, d :: MatchesWith(text, i, w, d) ==> MatchAt(text, i) == Some(d)
  {
    if KeywordAt(text, i) {
      var k := SpaceEnd(text, i + 5);
      var m := DigitEnd(text, k);
      MatchAtUnique(text, i, k, m);
      SpaceRun(text, i + 5);
      DigitRun(text, k);
      if k != i + 5 && m != k {
        assert forall p :: 0 <= p < m - k ==> text[k..m][p] == text[k + p];
        assert MatchesWith(text, i, k - (i + 5), text[k..m]);
      }
    }
  }

  /** A match at `i` can only use the maximal whitespace and digit runs. */
  lemma MatchAtUnique(text: string, i: nat, k: nat, m: nat)
    requires KeywordAt(text, i) && i + 5 <= |text|
    requires k == SpaceEnd(text, i + 5) && k <= |text| && m == DigitEnd(text, k)
    ensures forall w: nat, d :: MatchesWith(text, i, w, d) ==> k == i + 5 + w && d == text[k..m]
  {
    forall w: nat, d | MatchesWith(text, i, w, d)
      ensures k == i + 5 + w && d == text[k..m]
    {
      var e := i + 5 + w;
      SpaceRun(text, i + 5);
      assert text[e] == d[0];
      assert !IsSpace(text[e]);
      assert k == e;
      DigitRun(text, k);
      forall p | e <= p < e + |d| ensures IsDigit(text[p]) {
        assert text[p] == d[p - e];
      }
      assert m == e + |d|;
    }
  }

  /** `re.search` from position `from`: the pattern tried at each position in turn. */
  function SearchFrom(text: string, from: nat): (r: Option<string>)
    requires from <= |text|
    ensures r.Some? ==> r.value != [] && AllDigits(r.value)
    decreases |text| - from
  {
    if from == |text| then MatchAt(text, from)
    else
      match MatchAt(text, from)
      case Some(d) => Some(d)
      case None => SearchFrom(text, from + 1)
  }

  /** The search finds nothing exactly when no position from `from` on matches. */
  lemma {:induction false} SearchFromNone(text: string, from: nat)
    requires from <= |text|
    ensures SearchFrom(text, from).None? <==> forall i :: from <= i <= |text| ==> MatchAt(text, i).None?
    decreases |text| - from
  {
    if from < |text| && MatchAt(text, from).None? {
      SearchFromNone(text, from + 1);
      assert SearchFrom(text, from) == SearchFrom(text, from + 1);
    } else {
      assert SearchFrom(text, from) == MatchAt(text, from);
    }
  }

  /** What the search finds is what the leftmost matching position from `from` on captures. */
  lemma {:induction false} SearchFromFirst(text: string, from: nat)
    requires from <= |text| && SearchFrom(text, from).Some?
    ensures exists i ::
      && from <= i <= |text| && MatchAt(text, i) == SearchFrom(text, from)
      && forall j :: from <= j < i ==> MatchAt(text, j).None?
    decreases |text| - from
  {
    if from < |text| && MatchAt(text, from).None? {
      assert SearchFrom(text, from) == SearchFrom(text, from + 1);
      SearchFromFirst(text, from + 1);
      var i :| from + 1 <= i <= |text| && MatchAt(text, i) == SearchFrom(text, from + 1)
               && forall j :: from + 1 <= j < i ==> MatchAt(text, j).None?;
      assert forall j :: from <= j < i ==> MatchAt(text, j).None?;
      assert from <= i <= |text| && MatchAt(text, i) == SearchFrom(text, from);
    } else {
      assert SearchFrom(text, from) == MatchAt(text, from);
    }
  }

  /** `extract_line_number`: the digits after the leftmost `Línea` that whitespace and
      digits follow, or None when the text has no such place. */
  function ExtractLineNumber(text: string): (r: Option<string>)
    ensures r.Some? ==> r.value != [] && AllDigits(r.value)
  {
    SearchFrom(text, 0)
  }

  /** The line number is the capture of the leftmost match of the pattern in the text; there is
      none exactly when the pattern matches nowhere. */
  lemma ExtractLineNumberLeftmost(text: string)
    ensures ExtractLineNumber(text).None? <==> forall i: nat, w: nat, d :: !MatchesWith(text, i, w, d)
    ensures ExtractLineNumber(text).Some? ==> exists i: nat, w: nat ::
      && MatchesWith(text, i, w, ExtractLineNumber(text).value)
      && forall j: nat, w': nat, d' :: j < i ==> !MatchesWith(text, j, w', d')
  {
    SearchFromNone(text, 0);
    forall i: nat, w: nat, d | MatchesWith(text, i, w, d)
      ensures i <= |text| && MatchAt(text, i) == Some(d)
    {
      MatchAtCorrect(text, i);
    }
    if ExtractLineNumber(text).Some? {
      SearchFromFirst(text, 0);
      var i :| 0 <= i <= |text| && MatchAt(text, i) == ExtractLineNumber(text)
               && forall j :: 0 <= j < i ==> MatchAt(text, j).None?;
      MatchAtCorrect(text, i);
      var w: nat :| MatchesWith(text, i, w, ExtractLineNumber(text).value);
    }
  }

  // ---------------------------------------------------------------------------------------
  // From links to alerts

  /** The detail-page marker holds the code key, 11 characters in. */
  lemma MarkerHasKey(href: string)
    requires Contains(href, DetailMarker)
    ensures Contains(href, CodeKey)
  {
    ContainsSpec(href, DetailMarker);
    var j: nat :| OccursAt(href, DetailMarker, j);
    assert href[j + 11..j + 18] == href[j..j + 18][11..18];
    assert OccursAt(href, CodeKey, j + 11);
    ContainsSpec(href, CodeKey);
  }

  /** The alert a link of the page stands for, if it is a detail link with a code and a title. */
  function AlertOfLink(link: Link): Option<Alert> {
    if !Contains(link.href, DetailMarker) then None
    else
      var code := SecondPiece(link.href, CodeKey);
      if code.Some? && code.value != "" && link.text != "" then
        Some(Alert(code.value, link.text, ExtractLineNumber(link.text), SiteRoot + link.href))
      else None
  }

  /** A link stands for an alert exactly when its target holds the detail marker and a
      non-empty code after `codigo=`, and the link has a title; the alert carries that code,
      the title, the title's line number and the link's absolute address. */
  lemma AlertOfLinkSpec(link: Link)
    ensures var r := AlertOfLink(link);
      && (r.Some? ==>
        && Contains(link.href, DetailMarker)
        && SecondPiece(link.href, CodeKey) == Some(r.value.code) && r.value.code != ""
        && r.value.title == link.text && r.value.title != ""
        && r.value.line == ExtractLineNumber(link.text)
        && r.value.url == SiteRoot + link.href)
      && (var detail := Contains(link.href, DetailMarker);
          detail && link.text != "" && SecondPiece(link.href, CodeKey) != Some("") ==> r.Some?)
  {
    if Contains(link.href, DetailMarker) {
      MarkerHasKey(link.href);
    }
  }

  /** The alerts of the page's links, in page order. */
  function ScrapedAlerts(links: seq<Link>): (r: seq<Alert>)
    ensures |r| <= |links|
    decreases |links|
  {
    if links == [] then []
    else
      ScrapedAlerts(links[..|links| - 1]) + LinkAlerts(links[|links| - 1])
  }

  /** The alert of one link, as a sequence of zero or one element. */
  function LinkAlerts(link: Link): seq<Alert> {
    match AlertOfLink(link)
    case Some(a) => [a]
    case None => []
  }

  /** An alert is scraped exactly when some link of the page stands for it. */
  lemma {:induction false} ScrapedMembers(links: seq<Link>, a: Alert)
    ensures a in ScrapedAlerts(links) ==> exists k :: 0 <= k < |links| && AlertOfLink(links[k]) == Some(a)
    ensures (exists k :: 0 <= k < |links| && AlertOfLink(links[k]) == Some(a)) ==> a in ScrapedAlerts(links)
    decreases |links|
  {
    if links != [] {
      var init := links[..|links| - 1];
      var last := links[|links| - 1];
      ScrapedMembers(init, a);
      if a in ScrapedAlerts(links) {
        if a in ScrapedAlerts(init) {
          var k :| 0 <= k < |init| && AlertOfLink(init[k]) == Some(a);
          assert links[k] == init[k];
        } else {
          assert AlertOfLink(last) == Some(a);
        }
      }
      if exists k :: 0 <= k < |links| && AlertOfLink(links[k]) == Some(a) {
        var k :| 0 <= k < |links| && AlertOfLink(links[k]) == Some(a);
        if k < |init| {
          assert init[k] == links[k];
          assert a in ScrapedAlerts(init);
        } else {
          assert k == |links| - 1;
          assert AlertOfLink(last) == Some(a);
        }
      }
    }
  }

  lemma ScrapedStep(links: seq<Link>, link: Link)
    ensures ScrapedAlerts(links + [link]) == ScrapedAlerts(links) + LinkAlerts(link)
  {
    assert (links + [link])[..|links|] == links;
  }

  /** The body of the scrape loop for one link: the alert it stands for, if any. */
  method ReadLink(link: Link) returns (found: Option<Alert>)
    ensures found == AlertOfLink(link)
  {
    found := None;
    if Contains(link.href, DetailMarker) {
      var title := link.text;
      MarkerHasKey(link.href);
      var code := SecondPiece(link.href, CodeKey);
      if code.Some? && code.value != "" && title != "" {
        var lineNumber := ExtractLineNumber(title);
        found := Some(Alert(code.value, title, lineNumber, SiteRoot + link.href));
      }
    }
  }

  /** The scrape of a fetched page; a failed request gives no alerts. */
  method ScrapeTmpAlerts(page: Option<seq<Link>>) returns (alerts: seq<Alert>)
    ensures page.None? ==> alerts == []
    ensures page.Some? ==> alerts == ScrapedAlerts(page.value)
  {
    alerts := [];
    if page.None? {
      return;
    }
    var links := page.value;
    assert links[..0] == [];
    for i := 0 to |links|
      invariant alerts == ScrapedAlerts(links[..i])
    {
      var found := ReadLink(links[i]);
      if found.Some? {
        alerts := alerts + [found.value];
      }
      assert alerts == ScrapedAlerts(links[..i + 1]) by {
        assert links[..i + 1] == links[..i] + [links[i]];
        ScrapedStep(links[..i], links[i]);
      }
    }
    assert links[..|links|] == links;
  }

  // ---------------------------------------------------------------------------------------
  // Interest filter and history diff

  /** Some subscriber wants `a`: it is general, or its line is monitored. */
  predicate IsMonitored(a: Alert, lines: set<string>) {
    if Truthy(a.line) then a.line.value in lines else true
  }

  /** The alerts someone wants, in their original order. */
  function MonitoredAlerts(alerts: seq<Alert>, lines: set<string>): (r: seq<Alert>)
    ensures Subseq(r, alerts)
    ensures forall a :: a in r <==> a in alerts && IsMonitored(a, lines)
    decreases |alerts|
  {
    if alerts == [] then []
    else
      var a := alerts[|alerts| - 1];
      var rest := MonitoredAlerts(alerts[..|alerts| - 1], lines);
      assert alerts == alerts[..|alerts| - 1] + [a];
      if IsMonitored(a, lines) then rest + [a] else rest
  }

  /** The filter keeps every copy of a wanted alert and no copy of the others. Together with
      `Subseq` this leaves one possible result: the wanted alerts, repetitions included, in
      their original order. */
  lemma {:induction false} MonitoredCounts(alerts: seq<Alert>, lines: set<string>, a: Alert)
    ensures multiset(MonitoredAlerts(alerts, lines))[a]
            == if IsMonitored(a, lines) then multiset(alerts)[a] else 0
    decreases |alerts|
  {
    if alerts != [] {
      var init := alerts[..|alerts| - 1];
      assert alerts == init + [alerts[|alerts| - 1]];
      MonitoredCounts(init, lines, a);
    }
  }

  lemma MonitoredStep(alerts: seq<Alert>, a: Alert, lines: set<string>)
    ensures MonitoredAlerts(alerts + [a], lines)
            == MonitoredAlerts(alerts, lines) + (if IsMonitored(a, lines) then [a] else [])
  {
    assert (alerts + [a])[..|alerts|] == alerts;
  }

  /** `get_monitored_alerts`: keeps, in page order, every general alert and every alert for a
      line some subscriber follows. */
  method GetMonitoredAlerts(alerts: seq<Alert>, manager: SubscriptionManager) returns (monitored: seq<Alert>)
    requires manager.Valid()
    ensures monitored == MonitoredAlerts(alerts, AllLines(manager.data))
  {
    var monitoredLines := manager.GetAllMonitoredLines();
    monitored := [];
    var i := 0;
    while i < |alerts|
      invariant 0 <= i <= |alerts|
      invariant monitored == MonitoredAlerts(alerts[..i], monitoredLines)
    {
      var alert := alerts[i];
      assert alerts[..i + 1] == alerts[..i] + [alert];
      MonitoredStep(alerts[..i], alert, monitoredLines);
      if Truthy(alert.line) && alert.line.value in monitoredLines {
        monitored := monitored + [alert];
      } else if !Truthy(alert.line) {
        monitored := monitored + [alert];
      }
      i := i + 1;
    }
    assert alerts[..i] == alerts;
  }

  /** The codes recorded in a history. */
  function HistoryCodes(h: History): (r: set<string>)
    ensures forall c :: c in r <==> exists p :: p in h.alerts && p.code == c
  {
    set p | p in h.alerts :: p.code
  }

  /** The alerts whose code is not in `codes`, in their original order. */
  function FreshAlerts(alerts: seq<Alert>, codes: set<string>): (r: seq<Alert>)
    ensures Subseq(r, alerts)
    ensures forall a :: a in r <==> a in alerts && a.code !in codes
    decreases |alerts|
  {
    if alerts == [] then []
    else
      var a := alerts[|alerts| - 1];
      var rest := FreshAlerts(alerts[..|alerts| - 1], codes);
      assert alerts == alerts[..|alerts| - 1] + [a];
      if a.code !in codes then rest + [a] else rest
  }

  /** Dropping the alerts with a known code keeps every copy of the others. */
  lemma {:induction false} FreshCounts(alerts: seq<Alert>, codes: set<string>, a: Alert)
    ensures multiset(FreshAlerts(alerts, codes))[a] == if a.code !in codes then multiset(alerts)[a] else 0
    decreases |alerts|
  {
    if alerts != [] {
      var init := alerts[..|alerts| - 1];
      assert alerts == init + [alerts[|alerts| - 1]];
      FreshCounts(init, codes, a);
    }
  }

  /** `find_new_alerts`: the current alerts whose code the previous history lacks, in order. */
  function FindNewAlerts(current: seq<Alert>, previous: History): (r: seq<Alert>)
    ensures Subseq(r, current)
    ensures forall a :: a in r ==> forall p :: p in previous.alerts ==> p.code != a.code
    ensures forall a :: a in current && (forall p :: p in previous.alerts ==> p.code != a.code) ==> a in r
  {
    FreshAlerts(current, HistoryCodes(previous))
  }

  /** Every copy of a current alert whose code the history lacks is new, and no copy of one
      whose code it holds; with `Subseq`, the new alerts are fixed, repetitions and order
      included. */
  lemma NewAlertCounts(current: seq<Alert>, previous: History, a: Alert)
    ensures multiset(FindNewAlerts(current, previous))[a]
            == if a.code in HistoryCodes(previous) then 0 else multiset(current)[a]
  {
    FreshCounts(current, HistoryCodes(previous), a);
  }

  /** Nothing is new against a history made of the same alerts. */
  lemma {:induction false} NothingFreshAgainstItself(alerts: seq<Alert>, codes: set<string>)
    requires forall a :: a in alerts ==> a.code in codes
    ensures FreshAlerts(alerts, codes) == []
    decreases |alerts|
  {
    if alerts != [] {
      assert alerts[|alerts| - 1] in alerts;
      NothingFreshAgainstItself(alerts[..|alerts| - 1], codes);
    }
  }

  // ---------------------------------------------------------------------------------------
  // Delivery

  /** How many of the recipients `rs` the transport reached. */
  function CountDelivered(rs: seq<string>, delivered: string -> bool): (r: nat)
    ensures r <= |rs|
    decreases |rs|
  {
    if rs == [] then 0
    else CountDelivered(rs[..|rs| - 1], delivered) + (if delivered(rs[|rs| - 1]) then 1 else 0)
  }

  /** Every recipient is counted exactly when every delivery succeeded. */
  lemma {:induction false} AllDelivered(rs: seq<string>, delivered: string -> bool)
    ensures CountDelivered(rs, delivered) == |rs| <==> forall k :: 0 <= k < |rs| ==> delivered(rs[k])
    decreases |rs|
  {
    if rs != [] {
      var rest := rs[..|rs| - 1];
      AllDelivered(rest, delivered);
      assert forall k :: 0 <= k < |rest| ==> rest[k] == rs[k];
    }
  }

  lemma CountDeliveredStep(rs: seq<string>, id: string, delivered: string -> bool)
    ensures CountDelivered(rs + [id], delivered) == CountDelivered(rs, delivered) + (if delivered(id) then 1 else 0)
  {
    assert (rs + [id])[..|rs|] == rs;
  }

  /** A failure for one recipient costs exactly that one delivery: the others are counted as
      before. */
  lemma {:induction false} FailureIsIsolated(rs: seq<string>, x: string, ok: string -> bool, ok': string -> bool)
    requires Distinct(rs) && x in rs
    requires ok(x) && !ok'(x)
    requires forall y :: y != x ==> ok'(y) == ok(y)
    ensures CountDelivered(rs, ok') == CountDelivered(rs, ok) - 1
    decreases |rs|
  {
    var rest := rs[..|rs| - 1];
    var last := rs[|rs| - 1];
    assert rs == rest + [last];
    if last != x {
      assert x in rest;
      FailureIsIsolated(rest, x, ok, ok');
    } else {
      assert x !in rest;
      SameOutcomesSameCount(rest, ok, ok');
    }
  }

  lemma {:induction false} SameOutcomesSameCount(rs: seq<string>, ok: string -> bool, ok': string -> bool)
    requires forall y :: y in rs ==> ok'(y) == ok(y)
    ensures CountDelivered(rs, ok') == CountDelivered(rs, ok)
    decreases |rs|
  {
    if rs != [] {
      assert rs == rs[..|rs| - 1] + [rs[|rs| - 1]];
      SameOutcomesSameCount(rs[..|rs| - 1], ok, ok');
    }
  }

  /** Whom the dispatcher tries for alert `a`: nobody without a token, otherwise every recipient. */
  function Attempts(t: Table, token: Option<string>, a: Alert): (r: seq<string>)
    requires WellFormed(t)
    ensures !Truthy(token) ==> r == []
    ensures Truthy(token) ==> forall id :: id in r <==> id in t.users && Wants(t.users[id], a.line)
  {
    if Truthy(token) then RecipientsFor(t, a.line) else []
  }

  /** `send_telegram_notifications`: one transport call per recipient, none skipped after a
      failure; returns how many were delivered and the recipients tried. */
  method SendTelegramNotifications(alert: Alert, manager: SubscriptionManager, token: Option<string>,
                                   delivered: string -> bool)
    returns (sent: nat, attempts: seq<string>)
    requires manager.Valid()
    ensures attempts == Attempts(manager.data, token, alert)
    ensures sent == CountDelivered(attempts, delivered) && sent <= |attempts|
  {
    attempts := [];
    sent := 0;
    if !Truthy(token) {
      return;
    }
    var recipients := manager.GetUsersForAlert(alert.line);
    if recipients == [] {
      return;
    }
    assert recipients[..0] == [];
    for i := 0 to |recipients|
      invariant attempts == recipients[..i]
      invariant sent == CountDelivered(attempts, delivered)
    {
      var chatId := recipients[i];
      ghost var before := attempts;
      ghost var sentBefore := sent;
      attempts := attempts + [chatId];
      if delivered(chatId) {
        sent := sent + 1;
      }
      assert attempts == recipients[..i + 1] && sent == CountDelivered(attempts, delivered) by {
        assert sent == sentBefore + (if delivered(chatId) then 1 else 0);
        CountDeliveredStep(before, chatId, delivered);
        assert recipients[..i + 1] == recipients[..i] + [chatId];
      }
    }
    assert recipients[..|recipients|] == recipients;
  }

  // ---------------------------------------------------------------------------------------
  // One run

  /** The outside effects of a run, in the order they happen. */
  datatype Effect =
    | LoadHistory
    | FetchPage
    | Deliver(chatId: string, code: string)
    | SaveHistory(history: History)

  /** One delivery effect per recipient, in order. */
  function Deliveries(ids: seq<string>, code: string): (r: seq<Effect>)
    ensures |r| == |ids|
    decreases |ids|
  {
    if ids == [] then [] else [Deliver(ids[0], code)] + Deliveries(ids[1..], code)
  }

  /** The delivery attempts for `alerts`, sent one alert after the other. */
  function DispatchLog(t: Table, token: Option<string>, alerts: seq<Alert>): seq<Effect>
    requires WellFormed(t)
    decreases |alerts|
  {
    if alerts == [] then []
    else
      var a := alerts[|alerts| - 1];
      DispatchLog(t, token, alerts[..|alerts| - 1]) + Deliveries(Attempts(t, token, a), a.code)
  }

  /** The deliveries that succeeded while dispatching `alerts`. */
  function TotalSent(t: Table, token: Option<string>, delivered: string -> bool, alerts: seq<Alert>): (r: nat)
    requires WellFormed(t)
    decreases |alerts|
  {
    if alerts == [] then 0
    else
      var a := alerts[|alerts| - 1];
      TotalSent(t, token, delivered, alerts[..|alerts| - 1]) + CountDelivered(Attempts(t, token, a), delivered)
  }

  lemma DispatchStep(t: Table, token: Option<string>, delivered: string -> bool, alerts: seq<Alert>, a: Alert)
    requires WellFormed(t)
    ensures DispatchLog(t, token, alerts + [a]) == DispatchLog(t, token, alerts) + Deliveries(Attempts(t, token, a), a.code)
    ensures TotalSent(t, token, delivered, alerts + [a])
            == TotalSent(t, token, delivered, alerts) + CountDelivered(Attempts(t, token, a), delivered)
  {
    assert (alerts + [a])[..|alerts|] == alerts;
  }

  /** Every effect of a delivery batch is a delivery to one of the recipients of that alert. */
  lemma {:induction false} DeliveriesOnly(ids: seq<string>, code: string)
    ensures forall k :: 0 <= k < |ids| ==> Deliveries(ids, code)[k] == Deliver(ids[k], code)
    decreases |ids|
  {
    if ids != [] {
      DeliveriesOnly(ids[1..], code);
    }
  }

  /** Dispatching only delivers: it neither loads, fetches nor saves. */
  lemma {:induction false} DispatchOnlyDelivers(t: Table, token: Option<string>, alerts: seq<Alert>)
    requires WellFormed(t)
    ensures forall e :: e in DispatchLog(t, token, alerts) ==> e.Deliver?
    decreases |alerts|
  {
    if alerts != [] {
      var a := alerts[|alerts| - 1];
      var step: seq<Effect> := Deliveries(Attempts(t, token, a), a.code);
      DispatchOnlyDelivers(t, token, alerts[..|alerts| - 1]);
      DeliveriesOnly(Attempts(t, token, a), a.code);
      assert forall e :: e in step ==> e.Deliver?;
    }
  }

  /** How a run ends. */
  datatype RunResult =
    | NoUsers
    | FetchFailed
    | Completed(monitored: seq<Alert>, newAlerts: seq<Alert>, dispatched: seq<Alert>,
                totalSent: nat, saved: History)
  {
    /** The process exit status: only an empty fetch is a failure. */
    function ExitCode(): int {
      if FetchFailed? then 1 else 0
    }
  }

  /** The alerts the page yields, or none when the request failed. */
  function PageAlerts(page: Option<seq<Link>>): seq<Alert> {
    if page.None? then [] else ScrapedAlerts(page.value)
  }

  /** The decisions of one run on table `t`, given what loading the history, fetching the
      page and the transport return, and the time of the run. */
  function Run(t: Table, stored: Option<History>, page: Option<seq<Link>>, token: Option<string>,
               delivered: string -> bool, now: string): (r: (RunResult, seq<Effect>))
    requires WellFormed(t)
    ensures r.0 == NoUsers <==> |t.users| == 0
    ensures r.0 == NoUsers ==> r.1 == []
    ensures r.0.ExitCode() == 1 <==> |t.users| > 0 && PageAlerts(page) == []
    ensures r.0.FetchFailed? ==> r.1 == [LoadHistory, FetchPage]
    ensures r.0.Completed? ==>
      && |r.1| >= 3 && r.1[..2] == [LoadHistory, FetchPage]
      && r.1[|r.1| - 1] == SaveHistory(r.0.saved)
  {
    if |t.users| == 0 then (NoUsers, [])
    else
      var previous := stored.GetOr(EmptyHistory);
      var all := PageAlerts(page);
      if all == [] then (FetchFailed, [LoadHistory, FetchPage])
      else
        var monitored := MonitoredAlerts(all, AllLines(t));
        var found := FindNewAlerts(monitored, previous);
        var order := Reverse(found);
        var saved := History(Some(now), monitored);
        var log := DispatchLog(t, token, order);
        (Completed(monitored, found, order, TotalSent(t, token, delivered, order), saved),
         [LoadHistory, FetchPage] + log + [SaveHistory(saved)])
  }

  /** The dispatch loop of `main`: the new alerts from last to first, each sent to all its
      recipients before the next. */
  method DispatchNewAlerts(found: seq<Alert>, manager: SubscriptionManager, token: Option<string>,
                           delivered: string -> bool)
    returns (dispatched: seq<Alert>, log: seq<Effect>, totalSent: nat)
    requires manager.Valid()
    ensures dispatched == Reverse(found)
    ensures log == DispatchLog(manager.data, token, dispatched)
    ensures totalSent == TotalSent(manager.data, token, delivered, dispatched)
  {
    dispatched := [];
    log := [];
    totalSent := 0;
    var i := |found|;
    while i > 0
      invariant 0 <= i <= |found|
      invariant dispatched == Reverse(found[i..])
      invariant log == DispatchLog(manager.data, token, dispatched)
      invariant totalSent == TotalSent(manager.data, token, delivered, dispatched)
    {
      i := i - 1;
      var alert := found[i];
      assert found[i..][1..] == found[i + 1..];
      var sent, attempts := SendTelegramNotifications(alert, manager, token, delivered);
      DispatchStep(manager.data, token, delivered, dispatched, alert);
      dispatched := dispatched + [alert];
      log := log + Deliveries(attempts, alert.code);
      totalSent := totalSent + sent;
    }
    assert found[0..] == found;
  }

  /** `main`: the monitor's run, step by step. */
  method RunMonitor(manager: SubscriptionManager, stored: Option<History>, page: Option<seq<Link>>,
                    token: Option<string>, delivered: string -> bool, now: string)
    returns (result: RunResult, effects: seq<Effect>)
    requires manager.Valid()
    ensures (result, effects) == Run(manager.data, stored, page, token, delivered, now)
  {
    var stats := manager.GetStats();
    if stats.totalUsers == 0 {
      return NoUsers, [];
    }
    effects := [LoadHistory];
    var previous := stored.GetOr(EmptyHistory);
    effects := effects + [FetchPage];
    var all := ScrapeTmpAlerts(page);
    assert effects == [LoadHistory, FetchPage];
    assert all == PageAlerts(page);
    if all == [] {
      return FetchFailed, effects;
    }
    var monitored := GetMonitoredAlerts(all, manager);
    var found := FindNewAlerts(monitored, previous);
    var dispatched, log, totalSent := DispatchNewAlerts(found, manager, token, delivered);
    effects := effects + log;
    var saved := History(Some(now), monitored);
    effects := effects + [SaveHistory(saved)];
    result := Completed(monitored, found, dispatched, totalSent, saved);
  }

  // ---------------------------------------------------------------------------------------
  // Properties of runs

  /** New alerts go out oldest first: the page lists newest first, and the dispatch order is
      the reverse of the order in which new alerts were found. */
  lemma DispatchOldestFirst(t: Table, stored: Option<History>, page: Option<seq<Link>>, token: Option<string>,
                            delivered: string -> bool, now: string)
    requires WellFormed(t)
    ensures var res := Run(t, stored, page, token, delivered, now).0;
            res.Completed? ==>
              && |res.dispatched| == |res.newAlerts|
              && forall k :: 0 <= k < |res.newAlerts| ==> res.dispatched[k] == res.newAlerts[|res.newAlerts| - 1 - k]
  {
    var res := Run(t, stored, page, token, delivered, now).0;
    if res.Completed? {
      assert res.dispatched == Reverse(res.newAlerts);
      ReverseMirrors(res.newAlerts);
    }
  }

  /** A run never reports an alert whose code the loaded history holds, and reports every
      monitored alert whose code it lacks. */
  lemma NewMeansUnseen(t: Table, stored: Option<History>, page: Option<seq<Link>>, token: Option<string>,
                       delivered: string -> bool, now: string)
    requires WellFormed(t)
    requires Run(t, stored, page, token, delivered, now).0.Completed?
    ensures var res := Run(t, stored, page, token, delivered, now).0;
            && (forall a :: a in res.newAlerts ==> a.code !in HistoryCodes(stored.GetOr(EmptyHistory)))
            && (forall a :: a in res.monitored && a.code !in HistoryCodes(stored.GetOr(EmptyHistory))
                  ==> a in res.newAlerts)
  {
  }

  /** The saved history is exactly the monitored part of the page: an alert for a line nobody
      follows never enters it. */
  lemma SavedIsMonitored(t: Table, stored: Option<History>, page: Option<seq<Link>>, token: Option<string>,
                         delivered: string -> bool, now: string)
    requires WellFormed(t)
    requires Run(t, stored, page, token, delivered, now).0.Completed?
    ensures var res := Run(t, stored, page, token, delivered, now).0;
            && res.saved == History(Some(now), res.monitored)
            && (forall a :: a in res.saved.alerts <==> a in PageAlerts(page) && IsMonitored(a, AllLines(t)))
            && (forall a :: a in PageAlerts(page) && Truthy(a.line) && a.line.value !in AllLines(t)
                  ==> a !in res.saved.alerts)
  {
  }

  /** A run that finds nothing new sends nothing and only saves the monitored alerts. */
  lemma QuietRun(t: Table, h: History, page: Option<seq<Link>>, token: Option<string>,
                 delivered: string -> bool, now: string)
    requires WellFormed(t) && |t.users| > 0 && PageAlerts(page) != []
    requires FindNewAlerts(MonitoredAlerts(PageAlerts(page), AllLines(t)), h) == []
    ensures var monitored := MonitoredAlerts(PageAlerts(page), AllLines(t));
            Run(t, Some(h), page, token, delivered, now)
              == (Completed(monitored, [], [], 0, History(Some(now), monitored)),
                  [LoadHistory, FetchPage, SaveHistory(History(Some(now), monitored))])
  {
    var monitored := MonitoredAlerts(PageAlerts(page), AllLines(t));
    var saved := History(Some(now), monitored);
    var order: seq<Alert> := Reverse([]);
    assert order == [];
    assert DispatchLog(t, token, order) == [];
    assert TotalSent(t, token, delivered, order) == 0;
    assert [LoadHistory, FetchPage] + [] + [SaveHistory(saved)] == [LoadHistory, FetchPage, SaveHistory(saved)];
  }

  /** A second run over the same page with the same subscriptions, fed the history the first
      run saved, finds nothing new, sends nothing and saves the same alerts again. */
  lemma SecondRunQuiet(t: Table, stored: Option<History>, page: Option<seq<Link>>, token: Option<string>,
                       delivered: string -> bool, now: string, later: string)
    requires WellFormed(t)
    requires Run(t, stored, page, token, delivered, now).0.Completed?
    ensures var first := Run(t, stored, page, token, delivered, now).0;
            var second := Run(t, Some(first.saved), page, token, delivered, later);
            && second.0.Completed?
            && second.0.newAlerts == [] && second.0.totalSent == 0
            && second.0.saved.alerts == first.saved.alerts
            && second.1 == [LoadHistory, FetchPage, SaveHistory(History(Some(later), first.monitored))]
  {
    var first := Run(t, stored, page, token, delivered, now).0;
    var monitored := MonitoredAlerts(PageAlerts(page), AllLines(t));
    assert |t.users| > 0 && PageAlerts(page) != [];
    assert first.saved == History(Some(now), monitored) && first.monitored == monitored;
    assert FindNewAlerts(monitored, first.saved) == [] by {
      var codes := HistoryCodes(first.saved);
      forall a | a in monitored ensures a.code in codes {
        assert a in first.saved.alerts;
      }
      NothingFreshAgainstItself(monitored, codes);
    }
    QuietRun(t, first.saved, page, token, delivered, later);
  }

  /** After someone subscribes to a line, an alert for it that is still on the page, and that
      the previous run left out of the history because nobody followed the line, is new. */
  lemma ResubscribeReplays(t: Table, stored: Option<History>, links: seq<Link>, token: Option<string>,
                           delivered: string -> bool, now: string, later: string, id: string, a: Alert)
    requires WellFormed(t)
    requires a in ScrapedAlerts(links) && Truthy(a.line) && a.line.value !in AllLines(t)
    requires forall b :: b in ScrapedAlerts(links) && b.code == a.code ==> b == a
    requires Run(t, stored, Some(links), token, delivered, now).0.Completed?
    ensures var first := Run(t, stored, Some(links), token, delivered, now).0;
            var t2 := Subscribe(t, id, a.line.value).0;
            a in Run(t2, Some(first.saved), Some(links), token, delivered, later).0.newAlerts
  {
    var first := Run(t, stored, Some(links), token, delivered, now).0;
    var t2 := Subscribe(t, id, a.line.value).0;
    assert a.line.value in AllLines(t2);
    assert a.code !in HistoryCodes(first.saved);
    assert |t2.users| > 0 by { assert id in t2.users; }
  }

  /** The transport's answers change only the count of deliveries, never what is attempted or
      what is saved. */
  lemma TransportDoesNotSteer(t: Table, stored: Option<History>, page: Option<seq<Link>>, token: Option<string>,
                              ok: string -> bool, ok': string -> bool, now: string)
    requires WellFormed(t)
    ensures Run(t, stored, page, token, ok, now).1 == Run(t, stored, page, token, ok', now).1
  {
  }
}
