/** The `POST /api/visit-count` handler of the worker: a counter of unique
    visits per (IP, User-Agent) identity and 24-hour window, kept in two D1
    tables, plus the mobile-device classification of the User-Agent that
    `DeviceDetection` defines.

    The tables are `visit_counter`, whose only row ever written has `id = 1`,
    and `visit_records`, keyed by `(ip, user_agent)` and holding the epoch
    second of the identity's last counted visit. Every SQL statement the handler
    issues may throw; the first one that does aborts the request, and whatever
    the earlier statements wrote stays written, since each statement commits on
    its own. */
module VisitCounter {
  import opened Text
  import opened DeviceDetection

  /** The dedupe key: (client IP, User-Agent). */
  type Identity = (string, string)

  /** Length of the dedupe window in seconds. */
  const DedupeWindow: int := 86400

  /** The id of the single `visit_counter` row. */
  const CounterRowId: int := 1

  const Unknown: string := "unknown"

  const DatabaseErrorMessage: string := "Database error"

  // ---------------------------------------------------------------------------
  // Request identity

  /** The request headers the handler reads; `None` when a header is absent. */
  datatype Headers = Headers(
    cfConnectingIp: Option<string>,
    xForwardedFor: Option<string>,
    userAgent: Option<string>)

  /** A header value JavaScript's `||` keeps: present and not the empty string. */
  predicate Truthy(h: Option<string>) {
    h.Some? && h.value != ""
  }

  /** `CF-Connecting-IP`, else `X-Forwarded-For`, else `"unknown"`. */
  function ClientIp(h: Headers): (ip: string)
    ensures ip != ""
    ensures Truthy(h.cfConnectingIp) ==> ip == h.cfConnectingIp.value
    ensures !Truthy(h.cfConnectingIp) && Truthy(h.xForwardedFor) ==> ip == h.xForwardedFor.value
    ensures !Truthy(h.cfConnectingIp) && !Truthy(h.xForwardedFor) ==> ip == Unknown
  {
    if Truthy(h.cfConnectingIp) then h.cfConnectingIp.value
    else if Truthy(h.xForwardedFor) then h.xForwardedFor.value
    else Unknown
  }

  /** `User-Agent`, else `"unknown"`. */
  function UserAgent(h: Headers): (ua: string)
    ensures ua != ""
    ensures Truthy(h.userAgent) ==> ua == h.userAgent.value
    ensures !Truthy(h.userAgent) ==> ua == Unknown
  {
    if Truthy(h.userAgent) then h.userAgent.value else Unknown
  }

  function IdentityOf(h: Headers): Identity {
    (ClientIp(h), UserAgent(h))
  }

  // ---------------------------------------------------------------------------
  // The store and the request step, as values

  /** The persisted state: the counter row (absent, or its count) and the visit records. */
  datatype Ledger = Ledger(counter: Option<nat>, records: map<Identity, int>)

  const EmptyLedger: Ledger := Ledger(None, map[])

  /** `result ? result.count : 0` for `SELECT count FROM visit_counter WHERE id = 1`. */
  function StoredCount(l: Ledger): nat {
    if l.counter.Some? then l.counter.value else 0
  }

  /** `SELECT * FROM visit_records WHERE ip = ? AND user_agent = ? AND visit_time > ?`
      with the bound `now - 86400` finds a row. */
  predicate RecentVisit(l: Ledger, id: Identity, now: int) {
    id in l.records && l.records[id] > now - DedupeWindow
  }

  /** The SQL statement that throws, if any. */
  datatype Fault =
    | NoFault
    | FailCreateCounterTable
    | FailCreateRecordsTable
    | FailSelectCount
    | FailSelectRecord
    | FailWriteCount
    | FailUpsertRecord

  /** The JSON reply: `{count, isMobile}` with status 200, or `{count: 0, error}` with status 500. */
  datatype Response = Ok(count: nat, isMobile: bool) | Err(error: string) {
    function Status(): int {
      if Ok? then 200 else 500
    }
    function Count(): nat {
      if Ok? then count else 0
    }
  }

  datatype Outcome = Outcome(ledger: Ledger, response: Response)

  /** The store after a counted visit: counter row holding one more, record stamped `now`. */
  function Admit(l: Ledger, id: Identity, now: int): (l': Ledger)
    ensures StoredCount(l') == StoredCount(l) + 1
    ensures l'.records.Keys == l.records.Keys + {id} && l'.records[id] == now
    ensures forall other :: other in l.records && other != id ==> l'.records[other] == l.records[other]
  {
    Ledger(Some(StoredCount(l) + 1), l.records[id := now])
  }

  /** What one request does to the store and what it answers. The schema,
      count and record statements run first; a recent record means nothing is
      written; otherwise the counter row is written before the record row. */
  function Handle(l: Ledger, h: Headers, now: int, fault: Fault): Outcome
  {
    var id := IdentityOf(h);
    var ok := Ok(StoredCount(l), IsMobile(id.1));
    if fault in {FailCreateCounterTable, FailCreateRecordsTable, FailSelectCount, FailSelectRecord} then
      Outcome(l, Err(DatabaseErrorMessage))
    else if RecentVisit(l, id, now) then
      Outcome(l, ok)
    else if fault == FailWriteCount then
      Outcome(l, Err(DatabaseErrorMessage))
    else if fault == FailUpsertRecord then
      Outcome(l.(counter := Some(StoredCount(l) + 1)), Err(DatabaseErrorMessage))
    else
      var l' := Admit(l, id, now);
      Outcome(l', Ok(StoredCount(l'), IsMobile(id.1)))
  }

  // ---------------------------------------------------------------------------
  // The store as the handler updates it

  class VisitStore {
    var hasCounterRow: bool
    var count: nat
    var records: map<Identity, int>

    function State(): Ledger
      reads this
    {
      Ledger(if hasCounterRow then Some(count) else None, records)
    }

    /** A fresh deployment: neither table holds a row. */
    constructor ()
      ensures State() == EmptyLedger
    {
      hasCounterRow := false;
      count := 0;
      records := map[];
    }

    /** One `POST /api/visit-count`; `now` is `Math.floor(Date.now() / 1000)`. */
    method Visit(h: Headers, now: int, fault: Fault) returns (resp: Response)
      modifies this
      ensures Outcome(State(), resp) == Handle(old(State()), h, now, fault)
    {
      var clientIp := ClientIp(h);
      var userAgent := UserAgent(h);
      // CREATE TABLE IF NOT EXISTS visit_counter / visit_records
      if fault == FailCreateCounterTable || fault == FailCreateRecordsTable {
        return Err(DatabaseErrorMessage);
      }
      // SELECT count FROM visit_counter WHERE id = 1
      if fault == FailSelectCount {
        return Err(DatabaseErrorMessage);
      }
      var found := hasCounterRow;
      var current := count;
      // SELECT * FROM visit_records WHERE ip = ? AND user_agent = ? AND visit_time > ?
      if fault == FailSelectRecord {
        return Err(DatabaseErrorMessage);
      }
      var oneDayAgo := now - DedupeWindow;
      var recent := (clientIp, userAgent) in records && records[(clientIp, userAgent)] > oneDayAgo;
      var c := if found then current else 0;
      if !recent {
        c := c + 1;
        if fault == FailWriteCount {
          return Err(DatabaseErrorMessage);
        }
        if found {
          // UPDATE visit_counter SET count = ? WHERE id = 1
          count := c;
        } else {
          // INSERT INTO visit_counter (id, count) VALUES (1, ?)
          hasCounterRow := true;
          count := c;
        }
        if fault == FailUpsertRecord {
          return Err(DatabaseErrorMessage);
        }
        // INSERT OR REPLACE INTO visit_records (ip, user_agent, visit_time) VALUES (?, ?, ?)
        records := records[(clientIp, userAgent) := now];
      }
      resp := Ok(c, IsMobile(userAgent));
    }
  }

  // ---------------------------------------------------------------------------
  // Properties of one request

  /** A repeat inside the window writes nothing and answers the stored count,
      whichever of the write statements would have failed. */
  lemma RepeatInsideWindow(l: Ledger, h: Headers, now: int, fault: Fault)
    requires RecentVisit(l, IdentityOf(h), now)
    requires fault in {NoFault, FailWriteCount, FailUpsertRecord}
    ensures Handle(l, h, now, fault) == Outcome(l, Ok(StoredCount(l), IsMobile(UserAgent(h))))
  {
  }

  /** Without a recent record a successful request counts one more visit and
      stamps the identity's record with `now`, leaving every other record alone. */
  lemma CountedVisit(l: Ledger, h: Headers, now: int)
    requires !RecentVisit(l, IdentityOf(h), now)
    ensures var o := Handle(l, h, now, NoFault);
      && o.response == Ok(StoredCount(l) + 1, IsMobile(UserAgent(h)))
      && o.ledger.counter == Some(StoredCount(l) + 1)
      && o.ledger.records == l.records[IdentityOf(h) := now]
  {
  }

  /** The first request against an empty store answers 1 and leaves exactly one
      counter row and exactly one record. */
  lemma FirstVisit(h: Headers, now: int)
    ensures var o := Handle(EmptyLedger, h, now, NoFault);
      && o.response == Ok(1, IsMobile(UserAgent(h)))
      && o.ledger.counter == Some(1)
      && o.ledger.records == map[IdentityOf(h) := now]
      && |o.ledger.records| == 1
  {
  }

  /** The window is open at the bottom: a record stamped exactly 86400 seconds
      ago no longer suppresses the count, one stamped a second later does. */
  lemma WindowBoundary(l: Ledger, h: Headers, stamp: int)
    requires IdentityOf(h) in l.records && l.records[IdentityOf(h)] == stamp
    ensures Handle(l, h, stamp + DedupeWindow - 1, NoFault).ledger == l
    ensures Handle(l, h, stamp + DedupeWindow, NoFault).response.Count() == StoredCount(l) + 1
  {
  }

  /** The once-per-window promise holds only while no write fails: when the
      record statement throws after the counter row was written, the visit is
      counted but leaves no record, so the same identity's next request, even
      at the same instant, is counted a second time. */
  lemma FailedRecordRecounts(l: Ledger, h: Headers, now: int)
    requires !RecentVisit(l, IdentityOf(h), now)
    ensures var l1 := Handle(l, h, now, FailUpsertRecord).ledger;
      && StoredCount(l1) == StoredCount(l) + 1
      && l1.records == l.records
      && Handle(l1, h, now, NoFault).response == Ok(StoredCount(l) + 2, IsMobile(UserAgent(h)))
  {
    var l1 := Handle(l, h, now, FailUpsertRecord).ledger;
    assert !RecentVisit(l1, IdentityOf(h), now);
  }

  /** A counted visit replaces the identity's row rather than adding one, and
      no request touches the rows of other identities. */
  lemma RecordsUpsert(l: Ledger, h: Headers, now: int, fault: Fault)
    ensures var l' := Handle(l, h, now, fault).ledger;
      && l'.records.Keys <= l.records.Keys + {IdentityOf(h)}
      && |l'.records| <= |l.records| + 1
      && (IdentityOf(h) in l.records ==> |l'.records| == |l.records|)
      && forall other :: other in l.records && other != IdentityOf(h) ==> l'.records[other] == l.records[other]
  {
    var l' := Handle(l, h, now, fault).ledger;
    var id := IdentityOf(h);
    if l'.records != l.records {
      assert l'.records == l.records[id := now];
      if id in l.records {
        assert l'.records.Keys == l.records.Keys;
      } else {
        assert l'.records.Keys == l.records.Keys + {id};
      }
    }
  }

  /** Any failing statement yields `{count: 0, error: 'Database error'}` with
      status 500, and the reply is an error exactly when a statement that ran
      failed. */
  lemma ErrorReply(l: Ledger, h: Headers, now: int, fault: Fault)
    ensures var r := Handle(l, h, now, fault).response;
      && (r.Err? ==> r == Err("Database error") && r.Status() == 500 && r.Count() == 0)
      && (r.Ok? ==> r.Status() == 200)
      && (r.Err? <==>
            fault in {FailCreateCounterTable, FailCreateRecordsTable, FailSelectCount, FailSelectRecord}
            || (fault in {FailWriteCount, FailUpsertRecord} && !RecentVisit(l, IdentityOf(h), now)))
  {
  }

  /** The reply's count is the stored count, plus one for a counted visit. */
  lemma ReplyCount(l: Ledger, h: Headers, now: int, fault: Fault)
    ensures var o := Handle(l, h, now, fault);
      o.response.Ok? ==> (o.response.count == StoredCount(o.ledger)
        && StoredCount(o.ledger) == StoredCount(l) + (if RecentVisit(l, IdentityOf(h), now) then 0 else 1))
  {
  }

  /** A request without any of the headers still succeeds, as identity
      ("unknown", "unknown"), and is not classified mobile. */
  lemma MissingHeaders(l: Ledger, now: int)
    ensures IdentityOf(Headers(None, None, None)) == (Unknown, Unknown)
    ensures Handle(l, Headers(None, None, None), now, NoFault).response.Ok?
    ensures !Handle(l, Headers(None, None, None), now, NoFault).response.isMobile
  {
    UnknownNotMobile();
  }

  /** The fallback User-Agent `"unknown"` is not classified mobile. */
  lemma UnknownNotMobile()
    ensures !IsMobile(Unknown)
  {
    NotMobileWithoutLetters(Unknown);
  }

  // ---------------------------------------------------------------------------
  // Properties of a sequence of requests

  datatype Request = Request(headers: Headers, now: int, fault: Fault)

  function Run(l: Ledger, reqs: seq<Request>): Ledger
    decreases |reqs|
  {
    if reqs == [] then l
    else Run(Handle(l, reqs[0].headers, reqs[0].now, reqs[0].fault).ledger, reqs[1..])
  }

  /** One request raises the stored count by at most one and never lowers it. */
  lemma StepCount(l: Ledger, h: Headers, now: int, fault: Fault)
    ensures StoredCount(l) <= StoredCount(Handle(l, h, now, fault).ledger) <= StoredCount(l) + 1
  {
  }

  /** The stored count never decreases, and grows by at most one per request,
      whatever requests arrive and whichever of them fail. */
  lemma {:induction false} RunMonotone(l: Ledger, reqs: seq<Request>)
    decreases |reqs|
    ensures StoredCount(l) <= StoredCount(Run(l, reqs)) <= StoredCount(l) + |reqs|
  {
    if reqs != [] {
      var r := reqs[0];
      StepCount(l, r.headers, r.now, r.fault);
      RunMonotone(Handle(l, r.headers, r.now, r.fault).ledger, reqs[1..]);
    }
  }

  /** Requests of one identity that all succeed and all arrive less than 86400
      seconds after a counted visit of that identity at `stamp` change nothing. */
  lemma {:induction false} RepeatsInsideWindow(l: Ledger, h: Headers, stamp: int, reqs: seq<Request>)
    decreases |reqs|
    requires IdentityOf(h) in l.records && l.records[IdentityOf(h)] == stamp
    requires forall i :: 0 <= i < |reqs| ==>
      reqs[i].headers == h && reqs[i].fault == NoFault && reqs[i].now < stamp + DedupeWindow
    ensures Run(l, reqs) == l
  {
    if reqs != [] {
      RepeatInsideWindow(l, h, reqs[0].now, NoFault);
      RepeatsInsideWindow(l, h, stamp, reqs[1..]);
    }
  }

  /** Dedupe: after a counted visit, asking again from the same identity at any
      time in the next 86400 seconds answers the same count and changes nothing. */
  lemma DedupeIdempotent(l: Ledger, h: Headers, now: int, later: int)
    requires !RecentVisit(l, IdentityOf(h), now)
    requires now <= later < now + DedupeWindow
    ensures var o := Handle(l, h, now, NoFault);
      Handle(o.ledger, h, later, NoFault) == o
  {
  }

  /** The visit is counted again once the window has passed since the last count. */
  lemma CountedAgainAfterWindow(l: Ledger, h: Headers, now: int, later: int)
    requires !RecentVisit(l, IdentityOf(h), now)
    requires later >= now + DedupeWindow
    ensures var o := Handle(l, h, now, NoFault);
      Handle(o.ledger, h, later, NoFault).response.Count() == StoredCount(l) + 2
  {
  }
}
