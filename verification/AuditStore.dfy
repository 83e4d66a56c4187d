/**
 The audit tables: what each action message of a rulebook process inserts, and what
 the tables hold after any number of messages.
 */
module AuditStore {
  import opened Common

  /** A rule firing: the rule and the time it ran. */
  datatype RuleKey = RuleKey(uuid: string, firedAt: int)

  datatype Rule = Rule(key: RuleKey, name: string, instance: nat, status: string)

  datatype Action = Action(
    name: string, firedAt: int, status: string, ruleFiredAt: int, ruleId: nat, text: string)

  datatype Event = Event(source: string, payload: string, receivedAt: int, ruleFiredAt: int)

  datatype Meta = Meta(uuid: string, source: string, receivedAt: int)

  /** An event that matched; without metadata it is not recorded. */
  datatype Matching = Matching(meta: Option<Meta>, payload: string)

  datatype Message = Message(
    instance: nat, key: RuleKey, rule: string, status: string, actionUuid: string, action: string, runAt: int,
        text: string,
    matching: seq<Matching>)

  /** The link of an event to an action that it led to. */
  datatype Link = Link(event: string, action: string)

  datatype Store = Store(rules: seq<Rule>, actions: map<string, Action>, events: map<string, Event>, links: set<Link>)

  datatype Missing = RulebookProcessNotFound(id: nat)

  const FAILED := "failed"

  const EMPTY := Store([], map[], map[], {})

  /** The first position of a key, or the number of keys. */
  function FirstAt<K(==)>(keys: seq<K>, key: K): (i: nat)
    ensures i <= |keys| && (i < |keys| ==> keys[i] == key) && forall j | 0 <= j < i :: keys[j] != key
  {
    if keys == [] then 0
    else
      var n := |keys| - 1;
      var i := FirstAt(keys[..n], key);
      if i < n || keys[n] == key then i else n + 1
  }

  lemma FirstAtSnoc<K>(keys: seq<K>, k: K, key: K)
    ensures FirstAt(keys + [k], key) ==
      if FirstAt(keys, key) < |keys| || k == key then FirstAt(keys, key) else |keys| + 1
  {
    assert (keys + [k])[..|keys|] == keys;
  }

  // ------------------------------------------------- one message

  function RuleKeys(rules: seq<Rule>): (keys: seq<RuleKey>)
    ensures |keys| == |rules| && forall i | 0 <= i < |keys| :: keys[i] == rules[i].key
  {
    seq(|rules|, i requires 0 <= i < |rules| => rules[i].key)
  }

  /** The first row of a firing, or the number of rows. */
  function RuleAt(rules: seq<Rule>, key: RuleKey): (i: nat)
    ensures i <= |rules| && (i < |rules| ==> rules[i].key == key) && forall j | 0 <= j < i :: rules[j].key != key
  {
    FirstAt(RuleKeys(rules), key)
  }

  /** A failed rule stays failed; otherwise the message's status is taken. */
  function WithRule(s: Store, m: Message): Store {
    var i := RuleAt(s.rules, m.key);
    if i == |s.rules| then s.(rules := s.rules + [Rule(m.key, m.rule, m.instance, m.status)])
    else if s.rules[i].status != m.status && s.rules[i].status != FAILED then
      s.(rules := s.rules[i := s.rules[i].(status := m.status)])
    else s
  }

  function ActionFrom(m: Message, ruleId: nat): Action {
    Action(m.action, m.runAt, m.status, m.key.firedAt, ruleId, m.text)
  }

  function WithAction(s: Store, m: Message, ruleId: nat): Store {
    if m.actionUuid in s.actions then s else s.(actions := s.actions[m.actionUuid := ActionFrom(m, ruleId)])
  }

  function EventFrom(m: Message, e: Matching): Event
    requires e.meta.Some?
  {
    Event(e.meta.value.source, e.payload, e.meta.value.receivedAt, m.key.firedAt)
  }

  function WithEvent(s: Store, m: Message, e: Matching): Store {
    if e.meta.None? then s
    else
      var id := e.meta.value.uuid;
      s.(events := if id in s.events then s.events else s.events[id := EventFrom(m, e)],
         links := s.links + {Link(id, m.actionUuid)})
  }

  function WithEvents(s: Store, m: Message, matching: seq<Matching>): Store {
    if matching == [] then s else WithEvent(WithEvents(s, m, matching[..|matching| - 1]), m, matching[|matching| - 1])
  }

  function Insert(s: Store, m: Message): Store {
    var ruled := WithRule(s, m);
    WithEvents(WithAction(ruled, m, RuleAt(ruled.rules, m.key)), m, m.matching)
  }

  /** All messages, in the order in which they are handled. */
  function InsertAll(ms: seq<Message>): Store {
    if ms == [] then EMPTY else Insert(InsertAll(ms[..|ms| - 1]), ms[|ms| - 1])
  }

  // ------------------------------------------------- the consumer

  class Consumer {
    var rules: seq<Rule>
    var actions: map<string, Action>
    var events: map<string, Event>
    var links: set<Link>
    const instances: set<nat>

    function Tables(): Store
      reads this
    {
      Store(rules, actions, events, links)
    }

    constructor (known: set<nat>)
      ensures Tables() == EMPTY && instances == known
    {
      rules, actions, events, links, instances := [], map[], map[], {}, known;
    }

    method GetOrCreateAuditRule(m: Message) returns (ruleId: nat)
      modifies `rules
      ensures Tables() == WithRule(old(Tables()), m) && ruleId == RuleAt(rules, m.key) < |rules|
    {
      ruleId := 0;
      while ruleId < |rules| && rules[ruleId].key != m.key
        invariant ruleId <= |rules| && forall j | 0 <= j < ruleId :: rules[j].key != m.key
      {
        ruleId := ruleId + 1;
      }
      FirstIsUnique(rules, m.key, ruleId);
      if ruleId == |rules| {
        rules := rules + [Rule(m.key, m.rule, m.instance, m.status)];
      } else if rules[ruleId].status != m.status && rules[ruleId].status != FAILED {
        rules := rules[ruleId := rules[ruleId].(status := m.status)];
      }
      FirstIsUnique(rules, m.key, ruleId);
    }

    method GetOrCreateAuditAction(m: Message, ruleId: nat)
      modifies `actions
      ensures Tables() == WithAction(old(Tables()), m, ruleId)
    {
      if m.actionUuid in actions {
        return;
      }
      actions := actions[m.actionUuid := ActionFrom(m, ruleId)];
    }

    method ProcessMatchingEvents(m: Message)
      modifies `events, `links
      ensures Tables() == WithEvents(old(Tables()), m, m.matching)
    {
      for i := 0 to |m.matching|
        invariant rules == old(rules) && actions == old(actions)
        invariant Tables() == WithEvents(old(Tables()), m, m.matching[..i])
      {
        assert m.matching[..i + 1][..i] == m.matching[..i];
        var meta := m.matching[i].meta;
        if meta.None? {
          continue;
        }
        if meta.value.uuid !in events {
          events := events[meta.value.uuid := EventFrom(m, m.matching[i])];
        }
        links := links + {Link(meta.value.uuid, m.actionUuid)};
      }
      assert m.matching[..|m.matching|] == m.matching;
    }

    /** A message of an unknown process is an error and changes nothing. */
    method InsertAuditRuleData(m: Message) returns (r: Result<(), Missing>)
      modifies this
      ensures r.Ok? <==> m.instance in instances
      ensures r.Ok? ==> Tables() == Insert(old(Tables()), m)
      ensures r.Err? ==> Tables() == old(Tables())
    {
      if m.instance !in instances {
        return Err(RulebookProcessNotFound(m.instance));
      }
      var ruleId := GetOrCreateAuditRule(m);
      GetOrCreateAuditAction(m, ruleId);
      ProcessMatchingEvents(m);
      return Ok(());
    }
  }

  lemma FirstIsUnique(rules: seq<Rule>, key: RuleKey, i: nat)
    requires i <= |rules| && (i < |rules| ==> rules[i].key == key) && forall j | 0 <= j < i :: rules[j].key != key
    ensures RuleAt(rules, key) == i
  {
  }

  // ------------------------------------------------- the summary of all messages

  /** The first message of a firing, or the number of messages. */
  function FirstOf(ms: seq<Message>, key: RuleKey): (i: nat)
    ensures i <= |ms| && (i < |ms| ==> ms[i].key == key) && forall j | 0 <= j < i :: ms[j].key != key
  {
    FirstAt(FiringsOf(ms), key)
  }

  function FiringsOf(ms: seq<Message>): (keys: seq<RuleKey>)
    ensures |keys| == |ms| && forall i | 0 <= i < |keys| :: keys[i] == ms[i].key
  {
    seq(|ms|, i requires 0 <= i < |ms| => ms[i].key)
  }

  /** The first message of an action, or the number of messages. */
  function FirstOfAction(ms: seq<Message>, uuid: string): (i: nat)
    ensures i <= |ms| && (i < |ms| ==> ms[i].actionUuid == uuid) && forall j | 0 <= j < i :: ms[j].actionUuid != uuid
  {
    FirstAt(ActionsOf(ms), uuid)
  }

  function ActionsOf(ms: seq<Message>): (keys: seq<string>)
    ensures |keys| == |ms| && forall i | 0 <= i < |keys| :: keys[i] == ms[i].actionUuid
  {
    seq(|ms|, i requires 0 <= i < |ms| => ms[i].actionUuid)
  }

  ghost predicate EverFailed(ms: seq<Message>, key: RuleKey) {
    exists i :: 0 <= i < |ms| && ms[i].key == key && ms[i].status == "failed"
  }

  ghost predicate LastOf(ms: seq<Message>, key: RuleKey, i: int) {
    forall j | i < j < |ms| && 0 <= j :: ms[j].key != key
  }

  /** `status` is that of the last message of the firing. */
  ghost predicate LastStatus(ms: seq<Message>, key: RuleKey, status: string) {
    exists i :: 0 <= i < |ms| && ms[i].key == key && ms[i].status == status && LastOf(ms, key, i)
  }

  /** One row for each firing, failed if any of its messages was, else with the status of the last. */
  ghost predicate RulesAre(rules: seq<Rule>, ms: seq<Message>) {
    && (forall i, j | 0 <= i < j < |rules| :: rules[i].key != rules[j].key)
    && (forall key :: RuleAt(rules, key) < |rules| <==> FirstOf(ms, key) < |ms|)
    && (forall i | 0 <= i < |rules| :: RowIs(rules[i], ms))
  }

  ghost predicate RowIs(row: Rule, ms: seq<Message>) {
    var first := FirstOf(ms, row.key);
    && first < |ms| && row.name == ms[first].rule && row.instance == ms[first].instance
    && if EverFailed(ms, row.key) then row.status == "failed" else LastStatus(ms, row.key, row.status)
  }

  /** One row for each action, from its first message, which belongs to that message's firing. */
  ghost predicate ActionsAre(s: Store, ms: seq<Message>) {
    && (forall uuid :: uuid in s.actions <==> FirstOfAction(ms, uuid) < |ms|)
    && (forall uuid | uuid in s.actions :: ActionIs(s, ms, uuid))
  }

  ghost predicate ActionIs(s: Store, ms: seq<Message>, uuid: string)
    requires uuid in s.actions
  {
    var first := FirstOfAction(ms, uuid);
    && first < |ms| && RuleAt(s.rules, ms[first].key) < |s.rules|
    && s.actions[uuid].name == ms[first].action && s.actions[uuid].firedAt == ms[first].runAt
    && s.actions[uuid].status == ms[first].status && s.actions[uuid].text == ms[first].text
    && s.actions[uuid].ruleFiredAt == ms[first].key.firedAt
    && s.actions[uuid].ruleId == RuleAt(s.rules, ms[first].key)
  }

  /** An event as some message reports it. */
  datatype Report = Report(m: Message, e: Matching, uuid: string, action: string)

  /** The report of one matching event, if it has metadata. */
  ghost function ReportOf(m: Message, e: Matching): seq<Report> {
    if e.meta.None? then [] else [Report(m, e, e.meta.value.uuid, m.actionUuid)]
  }

  ghost function ReportsIn(m: Message, matching: seq<Matching>): seq<Report> {
    if matching == [] then []
    else ReportsIn(m, matching[..|matching| - 1]) + ReportOf(m, matching[|matching| - 1])
  }

  /** A row holds what was reported. */
  ghost predicate EventIs(row: Event, r: Report) {
    && r.e.meta.Some? && row.source == r.e.meta.value.source && row.receivedAt == r.e.meta.value.receivedAt
    && row.payload == r.e.payload && row.ruleFiredAt == r.m.key.firedAt
  }

  /** All reports of all messages, in order. */
  ghost function Reports(ms: seq<Message>): seq<Report> {
    if ms == [] then [] else Reports(ms[..|ms| - 1]) + ReportsIn(ms[|ms| - 1], ms[|ms| - 1].matching)
  }

  /** The first report of an event, or the number of reports. */
  function FirstReport(reports: seq<Report>, uuid: string): (i: nat)
    ensures i <= |reports| && (i < |reports| ==> reports[i].uuid == uuid) && forall j | 0 <= j < i ::
      reports[j].uuid != uuid
  {
    FirstAt(EventsOf(reports), uuid)
  }

  function EventsOf(reports: seq<Report>): (keys: seq<string>)
    ensures |keys| == |reports| && forall i | 0 <= i < |keys| :: keys[i] == reports[i].uuid
  {
    seq(|reports|, i requires 0 <= i < |reports| => reports[i].uuid)
  }

  function LinksOf(reports: seq<Report>): set<Link> { set r | r in reports :: Link(r.uuid, r.action) }

  /** One row for each event, as first reported; a link for every event and action reported together. */
  ghost predicate EventsAre(s: Store, reports: seq<Report>) {
    && (forall uuid :: uuid in s.events <==> FirstReport(reports, uuid) < |reports|)
    && (forall uuid | uuid in s.events :: EventIs(s.events[uuid], reports[FirstReport(reports, uuid)]))
    && s.links == LinksOf(reports)
  }

  ghost predicate IsSummary(s: Store, ms: seq<Message>) {
    RulesAre(s.rules, ms) && ActionsAre(s, ms) && EventsAre(s, Reports(ms))
  }

  // ------------------------------------------------- one more message

  lemma FirstOfSnoc(ms: seq<Message>, m: Message, key: RuleKey)
    ensures FirstOf(ms + [m], key) == if FirstOf(ms, key) < |ms| || m.key == key then FirstOf(ms, key) else |ms| + 1
  {
    assert FiringsOf(ms + [m]) == FiringsOf(ms) + [m.key];
    FirstAtSnoc(FiringsOf(ms), m.key, key);
  }

  lemma FirstOfActionSnoc(ms: seq<Message>, m: Message, uuid: string)
    ensures FirstOfAction(ms + [m], uuid) ==
      if FirstOfAction(ms, uuid) < |ms| || m.actionUuid == uuid then FirstOfAction(ms, uuid) else |ms| + 1
  {
    assert ActionsOf(ms + [m]) == ActionsOf(ms) + [m.actionUuid];
    FirstAtSnoc(ActionsOf(ms), m.actionUuid, uuid);
  }

  lemma FirstReportSnoc(reports: seq<Report>, r: Report, uuid: string)
    ensures FirstReport(reports + [r], uuid) ==
      if FirstReport(reports, uuid) < |reports| || r.uuid == uuid then FirstReport(reports, uuid) else |reports| + 1
  {
    assert EventsOf(reports + [r]) == EventsOf(reports) + [r.uuid];
    FirstAtSnoc(EventsOf(reports), r.uuid, uuid);
  }

  /** A message of another firing changes nothing about a row. */
  lemma RowKept(row: Rule, ms: seq<Message>, m: Message)
    requires RowIs(row, ms) && m.key != row.key
    ensures RowIs(row, ms + [m])
  {
    var all := ms + [m];
    FirstOfSnoc(ms, m, row.key);
    assert forall i | 0 <= i < |ms| :: all[i] == ms[i];
    assert all[|ms|] == m;
    if EverFailed(ms, row.key) {
      var i :| 0 <= i < |ms| && ms[i].key == row.key && ms[i].status == "failed";
      assert all[i].status == "failed";
    } else {
      assert !EverFailed(all, row.key);
      var i :| 0 <= i < |ms| && ms[i].key == row.key && ms[i].status == row.status && LastOf(ms, row.key, i);
      assert all[i].status == row.status;
    }
  }

  /** The row of the message's own firing. */
  lemma RowTakesStatus(row: Rule, ms: seq<Message>, m: Message)
    requires RowIs(row, ms) && m.key == row.key
    ensures RowIs(if row.status == "failed" then row else row.(status := m.status), ms + [m])
  {
    var all := ms + [m];
    FirstOfSnoc(ms, m, row.key);
    assert forall i | 0 <= i < |ms| :: all[i] == ms[i];
    assert all[|ms|] == m;
    if EverFailed(ms, row.key) {
      var i :| 0 <= i < |ms| && ms[i].key == row.key && ms[i].status == "failed";
      assert all[i].status == "failed";
    }
  }

  lemma RowCreated(ms: seq<Message>, m: Message)
    requires FirstOf(ms, m.key) == |ms|
    ensures RowIs(Rule(m.key, m.rule, m.instance, m.status), ms + [m])
  {
    var all := ms + [m];
    FirstOfSnoc(ms, m, m.key);
    assert all[|ms|] == m;
    assert forall i | 0 <= i < |ms| :: all[i] == ms[i];
  }

  lemma RuleAtUpdated(rules: seq<Rule>, i: nat, row: Rule, key: RuleKey)
    requires i < |rules| && row.key == rules[i].key
    ensures RuleAt(rules[i := row], key) == RuleAt(rules, key)
  {
    FirstIsUnique(rules[i := row], key, RuleAt(rules, key));
  }

  lemma RuleAtSnoc(rules: seq<Rule>, row: Rule, key: RuleKey)
    ensures RuleAt(rules + [row], key) ==
      if RuleAt(rules, key) < |rules| || row.key == key then RuleAt(rules, key) else |rules| + 1
  {
    assert RuleKeys(rules + [row]) == RuleKeys(rules) + [row.key];
    FirstAtSnoc(RuleKeys(rules), row.key, key);
  }

  /** The rule table after one more message: a row more, a status taken, or nothing. */
  lemma RulesStep(s: Store, ms: seq<Message>, m: Message)
    requires RulesAre(s.rules, ms)
    ensures RulesAre(WithRule(s, m).rules, ms + [m])
    ensures RuleAt(WithRule(s, m).rules, m.key) < |WithRule(s, m).rules|
    ensures forall key | RuleAt(s.rules, key) < |s.rules| ::
      RuleAt(WithRule(s, m).rules, key) == RuleAt(s.rules, key) && |s.rules| <= |WithRule(s, m).rules|
  {
    hide RowIs, RuleAt, FirstOf;
    var i := RuleAt(s.rules, m.key);
    var after := WithRule(s, m).rules;
    forall key ensures RuleAt(after, key) ==
      if i == |s.rules| && RuleAt(s.rules, key) == |s.rules| && key != m.key then |s.rules| + 1
      else RuleAt(s.rules, key)
    {
      if i == |s.rules| {
        RuleAtSnoc(s.rules, Rule(m.key, m.rule, m.instance, m.status), key);
      } else {
        RuleAtUpdated(s.rules, i, after[i], key);
      }
    }
    forall key ensures RuleAt(after, key) < |after| <==> FirstOf(ms + [m], key) < |ms + [m]| {
      FirstOfSnoc(ms, m, key);
    }
    if i == |s.rules| {
      RowCreated(ms, m);
      assert forall k | 0 <= k < i :: s.rules[k].key != m.key;
    } else {
      RowTakesStatus(s.rules[i], ms, m);
      assert forall k | 0 <= k < |s.rules| && k != i :: s.rules[k].key != m.key;
    }
    forall k | 0 <= k < |after| ensures RowIs(after[k], ms + [m]) {
      if k != i {
        RowKept(s.rules[k], ms, m);
      }
    }
  }

  /** The action table after one more message. */
  lemma ActionsStep(s: Store, ms: seq<Message>, m: Message)
    requires RulesAre(s.rules, ms) && ActionsAre(s, ms)
    ensures var ruled := WithRule(s, m);
      ActionsAre(WithAction(ruled, m, RuleAt(ruled.rules, m.key)), ms + [m])
  {
    hide RulesAre, RuleAt, FirstOfAction, WithRule, ActionIs;
    RulesStep(s, ms, m);
    RuleOnly(s, m);
    var ruled := WithRule(s, m);
    var t := WithAction(ruled, m, RuleAt(ruled.rules, m.key));
    forall uuid ensures uuid in t.actions <==> FirstOfAction(ms + [m], uuid) < |ms + [m]| {
      FirstOfActionSnoc(ms, m, uuid);
    }
    forall uuid | uuid in t.actions ensures ActionIs(t, ms + [m], uuid) {
      ActionStays(s, ruled, ms, m, uuid);
    }
  }

  lemma RuleOnly(s: Store, m: Message)
    ensures WithRule(s, m) == s.(rules := WithRule(s, m).rules)
  {
  }

  lemma ActionStays(s: Store, ruled: Store, ms: seq<Message>, m: Message, uuid: string)
    requires ActionsAre(s, ms) && ruled.actions == s.actions && RuleAt(ruled.rules, m.key) < |ruled.rules|
    requires forall key | RuleAt(s.rules, key) < |s.rules| ::
      RuleAt(ruled.rules, key) == RuleAt(s.rules, key) && |s.rules| <= |ruled.rules|
    requires uuid in s.actions || uuid == m.actionUuid
    ensures ActionIs(WithAction(ruled, m, RuleAt(ruled.rules, m.key)), ms + [m], uuid)
  {
    hide RuleAt, FirstOfAction;
    FirstOfActionSnoc(ms, m, uuid);
    if uuid in s.actions {
      assert ActionIs(s, ms, uuid);
    }
  }

  lemma EventStep(s: Store, m: Message, e: Matching, reports: seq<Report>)
    requires EventsAre(s, reports)
    ensures EventsAre(WithEvent(s, m, e), reports + ReportOf(m, e))
  {
    if e.meta.None? {
      assert reports + [] == reports;
    } else {
      OneReport(s, m, e, reports, Report(m, e, e.meta.value.uuid, m.actionUuid));
    }
  }

  lemma OneReport(s: Store, m: Message, e: Matching, reports: seq<Report>, r: Report)
    requires EventsAre(s, reports) && e.meta.Some? && r == Report(m, e, e.meta.value.uuid, m.actionUuid)
    ensures EventsAre(WithEvent(s, m, e), reports + [r])
  {
    hide FirstReport;
    var t := WithEvent(s, m, e);
    var all := reports + [r];
    forall uuid ensures uuid in t.events <==> FirstReport(all, uuid) < |all| {
      FirstReportSnoc(reports, r, uuid);
    }
    forall uuid | uuid in t.events ensures EventIs(t.events[uuid], all[FirstReport(all, uuid)]) {
      FirstReportSnoc(reports, r, uuid);
    }
    LinksSnoc(reports, r);
  }

  lemma LinksSnoc(reports: seq<Report>, r: Report)
    ensures LinksOf(reports + [r]) == LinksOf(reports) + {Link(r.uuid, r.action)}
  {
    var before, after := LinksOf(reports), LinksOf(reports + [r]);
    assert forall x :: x in reports + [r] <==> x in reports || x == r;
    forall l | l in after ensures l in before + {Link(r.uuid, r.action)} {
      var x :| x in reports + [r] && l == Link(x.uuid, x.action);
    }
    assert r in reports + [r];
  }

  lemma {:induction false} EventsStep(s: Store, m: Message, matching: seq<Matching>, reports: seq<Report>)
    requires EventsAre(s, reports)
    ensures EventsAre(WithEvents(s, m, matching), reports + ReportsIn(m, matching))
  {
    hide EventsAre, WithEvent;
    if matching == [] {
      assert reports + [] == reports;
    } else {
      var n := |matching| - 1;
      EventsStep(s, m, matching[..n], reports);
      var more := ReportOf(m, matching[n]);
      EventStep(WithEvents(s, m, matching[..n]), m, matching[n], reports + ReportsIn(m, matching[..n]));
      assert reports + ReportsIn(m, matching[..n]) + more == reports + ReportsIn(m, matching);
    }
  }

  /** Recording events leaves the rules and actions alone. */
  lemma {:induction false} EventsOnly(s: Store, m: Message, matching: seq<Matching>)
    ensures WithEvents(s, m, matching).rules == s.rules && WithEvents(s, m, matching).actions == s.actions
  {
    if matching != [] {
      EventsOnly(s, m, matching[..|matching| - 1]);
    }
  }

  lemma SameActions(s: Store, t: Store, ms: seq<Message>)
    requires ActionsAre(s, ms) && t.rules == s.rules && t.actions == s.actions
    ensures ActionsAre(t, ms)
  {
    forall uuid | uuid in t.actions ensures ActionIs(t, ms, uuid) {
      assert ActionIs(s, ms, uuid);
    }
  }

  lemma SameEvents(s: Store, t: Store, reports: seq<Report>)
    requires EventsAre(s, reports) && t.events == s.events && t.links == s.links
    ensures EventsAre(t, reports)
  {
  }

  lemma SummaryStep(s: Store, ms: seq<Message>, m: Message)
    requires IsSummary(s, ms)
    ensures IsSummary(Insert(s, m), ms + [m])
  {
    hide RulesAre, ActionsAre, EventsAre, RuleAt, WithEvents, ReportsIn;
    RulesStep(s, ms, m);
    ActionsStep(s, ms, m);
    var ruled := WithRule(s, m);
    var acted := WithAction(ruled, m, RuleAt(ruled.rules, m.key));
    EventsOnly(acted, m, m.matching);
    SameActions(acted, Insert(s, m), ms + [m]);
    SameEvents(s, acted, Reports(ms));
    EventsStep(acted, m, m.matching, Reports(ms));
    assert (ms + [m])[..|ms|] == ms;
  }

  /** After any sequence of messages the tables are their summary. */
  lemma {:induction false} StoreIsSummary(ms: seq<Message>)
    ensures IsSummary(InsertAll(ms), ms)
  {
    hide Insert, IsSummary;
    if ms == [] {
      EmptyIsSummary();
    } else {
      var n := |ms| - 1;
      StoreIsSummary(ms[..n]);
      SummaryStep(InsertAll(ms[..n]), ms[..n], ms[n]);
      assert ms[..n] + [ms[n]] == ms;
    }
  }

  lemma EmptyIsSummary()
    ensures IsSummary(EMPTY, [])
  {
    assert RulesAre([], []);
    assert ActionsAre(EMPTY, []);
    assert EventsAre(EMPTY, []);
  }

  // ------------------------------------------------- a message that comes again

  /** What a message leaves behind when it has been handled. */
  ghost predicate Handled(s: Store, m: Message) {
    && RuleAt(s.rules, m.key) < |s.rules| && m.actionUuid in s.actions
    && (forall e | e in m.matching && e.meta.Some? :: Recorded(s, m, e))
  }

  ghost predicate Recorded(s: Store, m: Message, e: Matching)
    requires e.meta.Some?
  {
    e.meta.value.uuid in s.events && Link(e.meta.value.uuid, m.actionUuid) in s.links
  }

  ghost predicate Grows(s: Store, t: Store) {
    && s.events.Keys <= t.events.Keys && s.links <= t.links && s.actions.Keys <= t.actions.Keys
  }

  lemma {:induction false} EventsRecorded(s: Store, m: Message, matching: seq<Matching>)
    ensures Grows(s, WithEvents(s, m, matching))
    ensures forall e | e in matching && e.meta.Some? :: Recorded(WithEvents(s, m, matching), m, e)
  {
    if matching != [] {
      var n := |matching| - 1;
      EventsRecorded(s, m, matching[..n]);
      var before, after := WithEvents(s, m, matching[..n]), WithEvents(s, m, matching);
      forall e | e in matching && e.meta.Some? ensures Recorded(after, m, e) {
        assert e in matching[..n] || e == matching[n];
        assert e in matching[..n] ==> Recorded(before, m, e);
      }
    }
  }

  lemma {:induction false} EventsAgain(s: Store, m: Message, matching: seq<Matching>)
    requires forall e | e in matching && e.meta.Some? :: Recorded(s, m, e)
    ensures WithEvents(s, m, matching) == s
  {
    if matching != [] {
      var n := |matching| - 1;
      EventsAgain(s, m, matching[..n]);
      assert matching[n] in matching;
      assert matching[n].meta.Some? ==> Recorded(s, m, matching[n]);
    }
  }

  lemma {:induction false} InsertHandles(s: Store, m: Message)
    ensures Handled(Insert(s, m), m)
    ensures var row := Insert(s, m).rules[RuleAt(Insert(s, m).rules, m.key)];
      row.status == "failed" || row.status == m.status
  {
    hide WithEvents;
    var i := RuleAt(s.rules, m.key);
    var ruled := WithRule(s, m);
    if i == |s.rules| {
      RuleAtSnoc(s.rules, Rule(m.key, m.rule, m.instance, m.status), m.key);
    } else {
      RuleAtUpdated(s.rules, i, ruled.rules[i], m.key);
    }
    var acted := WithAction(ruled, m, RuleAt(ruled.rules, m.key));
    EventsOnly(acted, m, m.matching);
    EventsRecorded(acted, m, m.matching);
  }

  /** A handled message that comes again changes nothing, exactly when its rule has failed or has its status. */
  lemma {:induction false} RedeliveryIff(s: Store, m: Message)
    requires Handled(s, m)
    ensures var row := s.rules[RuleAt(s.rules, m.key)];
      Insert(s, m) == s <==> row.status == "failed" || row.status == m.status
  {
    hide WithEvents, RuleAt;
    var i := RuleAt(s.rules, m.key);
    var ruled := WithRule(s, m);
    EventsOnly(ruled, m, m.matching);
    if s.rules[i].status == "failed" || s.rules[i].status == m.status {
      EventsAgain(s, m, m.matching);
    } else {
      assert ruled.rules[i].status == m.status;
    }
  }

  /** In particular the last message may be delivered again. */
  lemma {:induction false} LastMessageAgain(s: Store, m: Message)
    ensures Insert(Insert(s, m), m) == Insert(s, m)
  {
    hide Insert, Handled;
    InsertHandles(s, m);
    RedeliveryIff(Insert(s, m), m);
  }
}
