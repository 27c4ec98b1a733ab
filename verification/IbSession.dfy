/**
 * The request table of the IBKR session: requests are registered on one thread and answered, row by row,
 * by callbacks on another. Each callback is one atomic step.
 */
module IbSession {
  import opened Enums

  const POSITION_REQUEST := 1
  const OPEN_ORDERS_REQUEST := 2
  const FIRST_REQUEST := 1000

  // ----- errors -----

  datatype ErrorClass = Connection | Permission | Contract | OrderRejected | Other

  datatype IbError = IbError(kind: ErrorClass, code: int, message: string)

  const INFO_CODES: set<int> := {2103, 2104, 2105, 2106, 2107, 2108, 2119, 2158, 2168, 2169}
  const CONNECTIVITY_CODES: set<int> := {502, 504, 1100, 1101, 1102, 1300, 2110}
  const PERMISSION_CODES: set<int> := {354, 10089, 10090, 10091, 10197, 10168, 10187, 10276, 460}
  const CONTRACT_CODES: set<int> := {200, 203, 321, 322, 430}
  const ORDER_REJECT_CODES: set<int> := {201, 202, 103, 104, 110, 10147, 10148}

  predicate Mentions(text: string, words: string) {
    exists i :: 0 <= i <= |text| - |words| && StandsAt(text, words, i)
  }

  predicate StandsAt(text: string, words: string, i: nat) {
    i + |words| <= |text| && text[i..i + |words|] == words
  }

  /** The class of an error, or None for a notice; the message is already in lower case. */
  function Classify(code: int, message: string): Option<ErrorClass> {
    if code in INFO_CODES then None
    else if code in CONNECTIVITY_CODES then Some(Connection)
    else if code in PERMISSION_CODES then Some(Permission)
    else if code in CONTRACT_CODES then Some(Contract)
    else if code in ORDER_REJECT_CODES then Some(OrderRejected)
    else if Mentions(message, "not permitted") || Mentions(message, "not enabled") || Mentions(message, "permission") then
      Some(Permission)
    else Some(Other)
  }

  /** The message complains of a permission, in one of three wordings. */
  ghost predicate Complains(message: string) {
    exists i, j :: 0 <= i <= j <= |message| && message[i..j] in ["not permitted", "not enabled", "permission"]
  }

  lemma MentionsIs(text: string, words: string)
    ensures Mentions(text, words) <==> exists i, j :: 0 <= i <= j <= |text| && text[i..j] == words
  {
    if Mentions(text, words) {
      var i :| 0 <= i <= |text| - |words| && StandsAt(text, words, i);
      assert text[i..i + |words|] == words;
    }
    if i, j :| 0 <= i <= j <= |text| && text[i..j] == words { assert StandsAt(text, words, i); }
  }

  /** What each listed code means; the five lists have no code in common, so their order does not matter. */
  lemma CodesAre(code: int, message: string)
    ensures Classify(code, message).None? <==> code in [2103, 2104, 2105, 2106, 2107, 2108, 2119, 2158, 2168, 2169]
    ensures Classify(code, message) == Some(Connection) <==> code in [502, 504, 1100, 1101, 1102, 1300, 2110]
    ensures Classify(code, message) == Some(Contract) <==> code in [200, 203, 321, 322, 430]
    ensures Classify(code, message) == Some(OrderRejected) <==> code in [103, 104, 110, 201, 202, 10147, 10148]
  {
    hide Mentions;
  }

  predicate PermissionCode(code: int) { code in [354, 460, 10089, 10090, 10091, 10168, 10187, 10197, 10276] }

  /** An error is one of permission by its code, or by its message where its code is on no list; otherwise it is of no kind. */
  lemma PermissionsAre(code: int, message: string)
    ensures PermissionCode(code) ==> Classify(code, message) == Some(Permission)
    ensures Classify(code, message) == Some(Permission) ==> PermissionCode(code) || Complains(message)
    ensures Classify(code, message) == Some(Other) ==> !Complains(message)
  {
    MentionsIs(message, "not permitted");
    MentionsIs(message, "not enabled");
    MentionsIs(message, "permission");
    hide Mentions;
  }

  // ----- futures and the table -----

  /** What has become of a future; only one that is waiting can still change. */
  datatype Future<Row> = Waiting | Succeeded(rows: seq<Row>) | FailedWith(error: IbError) | Abandoned {
    predicate Done() { !Waiting? }

    function SetResult(rows: seq<Row>): Future<Row> { if Done() then this else Succeeded(rows) }

    function SetException(e: IbError): Future<Row> { if Done() then this else FailedWith(e) }

    function Cancel(): Future<Row> { if Done() then this else Abandoned }
  }

  /** A request in flight: which future it completes, and the rows received for it so far. */
  datatype Pending<Row> = Pending(ticket: nat, rows: seq<Row>)

  /** Futures are numbered by registration. */
  datatype Table<Row> = Table(
    pending: map<int, Pending<Row>>, futures: seq<Future<Row>>,
    nextRequest: int, nextOrder: Option<int>,
    requestErrors: map<int, IbError>, unattributed: Option<IbError>)

  datatype Event<Row> =
    | Allocate
    | Register(id: int)
    | RowFor(id: int, row: Row)
    | End(id: int)
    | ErrorCallback(requestId: Option<int>, code: int, message: string)
    | ConnectionClosed
    | NextValidId(orderId: int)
    | TakeOrderId
    /** The waiting side gave up; the entry stays in the table. */
    | TimedOut(ticket: nat)

  const CLOSED := IbError(Connection, 0, "IBKR connection closed")

  function Opening<Row>(): Table<Row> { Table(map[], [], FIRST_REQUEST, None, map[], None) }

  /** The entry an id has in the table points at a registered future. */
  ghost predicate Valid<Row>(t: Table<Row>) {
    && (forall id :: id in t.pending ==> t.pending[id].ticket < |t.futures|)
    && (forall a, b :: a in t.pending && b in t.pending && t.pending[a].ticket == t.pending[b].ticket ==> a == b)
  }

  function Resolved<Row>(t: Table<Row>, id: int, rows: seq<Row>): Table<Row> {
    if id !in t.pending then t
    else
      var k := t.pending[id].ticket;
      t.(pending := t.pending - {id},
         futures := if k < |t.futures| then t.futures[k := t.futures[k].SetResult(rows)] else t.futures)
  }

  function Refused<Row>(t: Table<Row>, id: int, e: IbError): Table<Row> {
    if id !in t.pending then t
    else
      var k := t.pending[id].ticket;
      t.(pending := t.pending - {id},
         futures := if k < |t.futures| then t.futures[k := t.futures[k].SetException(e)] else t.futures)
  }

  function InFlight<Row>(t: Table<Row>): set<nat> { set id | id in t.pending :: t.pending[id].ticket }

  function AllFailed<Row>(t: Table<Row>, e: IbError): Table<Row> {
    t.(pending := map[],
       futures := seq(|t.futures|, k requires 0 <= k < |t.futures| =>
         if k in InFlight(t) then t.futures[k].SetException(e) else t.futures[k]))
  }

  /** An error goes to its request, to the record kept for its id, to everybody, or to the untargeted record. */
  function Routed<Row>(t: Table<Row>, requestId: Option<int>, e: IbError): Table<Row> {
    if requestId.Some? && requestId.value > 0 then
      if requestId.value in t.pending then Refused(t, requestId.value, e)
      else t.(requestErrors := t.requestErrors[requestId.value := e])
    else if e.kind.Connection? then AllFailed(t, e)
    else t.(unattributed := Some(e))
  }

  function Next<Row>(t: Table<Row>, e: Event<Row>): Table<Row> {
    match e
    case Allocate => t.(nextRequest := t.nextRequest + 1)
    case Register(id) => t.(pending := t.pending[id := Pending(|t.futures|, [])], futures := t.futures + [Waiting])
    case RowFor(id, row) =>
      if id !in t.pending then t
      else t.(pending := t.pending[id := Pending(t.pending[id].ticket, t.pending[id].rows + [row])])
    case End(id) => if id !in t.pending then t else Resolved(t, id, t.pending[id].rows)
    case ErrorCallback(requestId, code, message) =>
      (match Classify(code, message)
       case None => t
       case Some(kind) => Routed(t, requestId, IbError(kind, code, message)))
    case ConnectionClosed => AllFailed(t, CLOSED)
    case NextValidId(id) => t.(nextOrder := Some(id))
    case TakeOrderId => if t.nextOrder.Some? then t.(nextOrder := Some(t.nextOrder.value + 1)) else t
    case TimedOut(k) => if k < |t.futures| then t.(futures := t.futures[k := t.futures[k].Cancel()]) else t
  }

  function After<Row>(trace: seq<Event<Row>>): Table<Row> {
    if trace == [] then Opening() else Next(After(trace[..|trace| - 1]), trace[|trace| - 1])
  }

  // ----- the session object -----

  class Session<Row> {
    var pending: map<int, Pending<Row>>
    var futures: seq<Future<Row>>
    var nextRequest: int
    var nextOrder: Option<int>
    var requestErrors: map<int, IbError>
    var unattributed: Option<IbError>

    constructor ()
      ensures View() == Opening()
    {
      pending, futures, nextRequest, nextOrder, requestErrors, unattributed := map[], [], FIRST_REQUEST, None, map[], None;
    }

    function View(): Table<Row>
      reads this
    {
      Table(pending, futures, nextRequest, nextOrder, requestErrors, unattributed)
    }

    method AllocateRequestId() returns (id: int)
      modifies this`nextRequest
      ensures View() == Next(old(View()), Allocate) && id == nextRequest
    {
      nextRequest := nextRequest + 1;
      id := nextRequest;
    }

    method Register(id: int) returns (ticket: nat)
      modifies this`pending, this`futures
      ensures View() == Next(old(View()), Event.Register(id)) && ticket == |old(futures)|
    {
      ticket := |futures|;
      futures := futures + [Waiting];
      pending := pending[id := Pending(ticket, [])];
    }

    method OnRow(id: int, row: Row)
      modifies this`pending
      ensures View() == Next(old(View()), RowFor(id, row))
    {
      if id in pending {
        pending := pending[id := Pending(pending[id].ticket, pending[id].rows + [row])];
      }
    }

    method OnEnd(id: int)
      modifies this`pending, this`futures
      ensures View() == Next(old(View()), End(id))
    {
      var rows := if id in pending then pending[id].rows else [];
      Resolve(id, rows);
    }

    method Resolve(id: int, rows: seq<Row>)
      modifies this`pending, this`futures
      ensures View() == Resolved(old(View()), id, rows)
    {
      if id in pending {
        var k := pending[id].ticket;
        pending := pending - {id};
        if k < |futures| && !futures[k].Done() {
          futures := futures[k := Succeeded(rows)];
        }
      }
    }

    /** Fails the pending request; false when there was none. */
    method Reject(id: int, e: IbError) returns (found: bool)
      modifies this`pending, this`futures
      ensures found <==> id in old(pending)
      ensures View() == Refused(old(View()), id, e)
    {
      if id !in pending {
        return false;
      }
      var k := pending[id].ticket;
      pending := pending - {id};
      if k < |futures| && !futures[k].Done() {
        futures := futures[k := FailedWith(e)];
      }
      found := true;
    }

    /** Fails everything in flight, in one pass over the entries that were there. */
    method FailAll(e: IbError)
      modifies this`pending, this`futures
      ensures View() == AllFailed(old(View()), e)
    {
      var inFlight := InFlight(View());
      pending := map[];
      for k := 0 to |futures|
        invariant pending == map[] && |futures| == |old(futures)|
        invariant forall n :: 0 <= n < |futures| ==>
                    futures[n] == if n < k && n in inFlight then old(futures)[n].SetException(e) else old(futures)[n]
      {
        if k in inFlight && !futures[k].Done() {
          futures := futures[k := FailedWith(e)];
        }
      }
      assert futures == AllFailed(old(View()), e).futures;
    }

    /** Notices are ignored; every other error ends up in exactly one of four places. */
    method OnError(requestId: Option<int>, code: int, message: string)
      modifies this
      ensures View() == Next(old(View()), ErrorCallback(requestId, code, message))
    {
      var kind := Classify(code, message);
      if kind.None? {
        return;
      }
      var failure := IbError(kind.value, code, message);
      if requestId.Some? && requestId.value > 0 {
        var found := Reject(requestId.value, failure);
        if !found {
          requestErrors := requestErrors[requestId.value := failure];
        }
      } else if kind.value.Connection? {
        FailAll(failure);
      } else {
        unattributed := Some(failure);
      }
    }

    /** None before the broker has issued a first id. */
    method TakeOrderId() returns (id: Option<int>)
      modifies this`nextOrder
      ensures View() == Next(old(View()), Event.TakeOrderId) && id == old(nextOrder)
    {
      id := nextOrder;
      if nextOrder.Some? {
        nextOrder := Some(nextOrder.value + 1);
      }
    }
  }

  // ----- one request followed on its own -----

  /** The life of one request: still in the table with its rows, or no longer; and what its future shows. */
  datatype Life<Row> = Life(live: bool, rows: seq<Row>, future: Future<Row>)

  /** What one event means to the request `id` with future number `ticket`, ignoring all other requests. */
  function Lived<Row>(l: Life<Row>, id: int, ticket: nat, e: Event<Row>): Life<Row> {
    match e
    case TimedOut(k) => if k == ticket then l.(future := l.future.Cancel()) else l
    case Register(x) => if l.live && x == id then l.(live := false) else l
    case RowFor(x, row) => if l.live && x == id then l.(rows := l.rows + [row]) else l
    case End(x) => if l.live && x == id then Life(false, l.rows, l.future.SetResult(l.rows)) else l
    case ConnectionClosed => if l.live then Life(false, l.rows, l.future.SetException(CLOSED)) else l
    case ErrorCallback(r, code, message) =>
      (match Classify(code, message)
       case None => l
       case Some(kind) =>
         if l.live && (if r.Some? && r.value > 0 then r.value == id else kind.Connection?)
         then Life(false, l.rows, l.future.SetException(IbError(kind, code, message))) else l)
    case _ => l
  }

  predicate RegistersAt<Row>(trace: seq<Event<Row>>, n: nat) { n < |trace| && trace[n].Register? }

  function Registrations<Row>(trace: seq<Event<Row>>): nat {
    if trace == [] then 0 else Registrations(trace[..|trace| - 1]) + if trace[|trace| - 1].Register? then 1 else 0
  }

  /** The life of the request registered at event `n`, over everything that happened since. */
  function LifeOf<Row>(trace: seq<Event<Row>>, n: nat): Life<Row>
    requires RegistersAt(trace, n)
    decreases |trace|
  {
    if n == |trace| - 1 then Life(true, [], Waiting)
    else Lived(LifeOf(trace[..|trace| - 1], n), trace[n].id, Registrations(trace[..n]), trace[|trace| - 1])
  }

  // ----- the table is the sum of its requests -----

  /** A request's own story agrees with the table. */
  ghost predicate Agrees<Row>(t: Table<Row>, l: Life<Row>, id: int, ticket: nat) {
    && ticket < |t.futures| && t.futures[ticket] == l.future
    && (l.live <==> id in t.pending && t.pending[id].ticket == ticket)
    && (l.live ==> t.pending[id].rows == l.rows)
    && (forall other :: other in t.pending && t.pending[other].ticket == ticket ==> other == id)
  }

  lemma ValidStays<Row>(t: Table<Row>, e: Event<Row>)
    requires Valid(t)
    ensures Valid(Next(t, e))
  {
    hide Classify;
  }

  lemma EventAgrees<Row>(t: Table<Row>, l: Life<Row>, id: int, ticket: nat, e: Event<Row>)
    requires Valid(t) && Agrees(t, l, id, ticket)
    ensures Agrees(Next(t, e), Lived(l, id, ticket, e), id, ticket)
  {
    hide Classify;
  }

  lemma {:induction false} TableIsValid<Row>(trace: seq<Event<Row>>)
    ensures Valid(After(trace)) && |After(trace).futures| == Registrations(trace)
  {
    hide Classify;
    if trace != [] {
      TableIsValid(trace[..|trace| - 1]);
      ValidStays(After(trace[..|trace| - 1]), trace[|trace| - 1]);
    }
  }

  /**
   * For every interleaving of registrations, rows, ends, errors, timeouts and connection losses, each
   * request fares exactly as it would if it were followed on its own: its future shows what its own story
   * says, and while it is in flight the table holds exactly the rows of its own story.
   */
  lemma {:induction false} RequestsAreIndependent<Row>(trace: seq<Event<Row>>, n: nat)
    requires RegistersAt(trace, n)
    ensures Agrees(After(trace), LifeOf(trace, n), trace[n].id, Registrations(trace[..n]))
    decreases |trace|
  {
    var init, last := trace[..|trace| - 1], trace[|trace| - 1];
    TableIsValid(init);
    if n == |trace| - 1 {
      assert trace[..n] == init;
    } else {
      hide Next, Lived;
      RequestsAreIndependent(init, n);
      assert init[..n] == trace[..n];
      EventAgrees(After(init), LifeOf(init, n), trace[n].id, Registrations(trace[..n]), last);
    }
  }

  // ----- what follows for a single request -----

  function RowsFor<Row>(trace: seq<Event<Row>>, id: int): seq<Row> {
    if trace == [] then []
    else
      var e := trace[|trace| - 1];
      var earlier := RowsFor(trace[..|trace| - 1], id);
      if e.RowFor? && e.id == id then earlier + [e.row] else earlier
  }

  /** While a request is live, its rows are exactly those received since its registration, in order. */
  lemma {:induction false} LiveRows<Row>(trace: seq<Event<Row>>, n: nat)
    requires RegistersAt(trace, n) && LifeOf(trace, n).live
    ensures LifeOf(trace, n).rows == RowsFor(trace[n + 1..], trace[n].id)
    decreases |trace|
  {
    hide Classify;
    if n < |trace| - 1 {
      var init := trace[..|trace| - 1];
      LiveRows(init, n);
      assert trace[n + 1..][..|trace[n + 1..]| - 1] == init[n + 1..];
    }
  }

  /**
   * A future is completed at most once: from the moment it is done - with rows, with an error or by the
   * waiting side - no later event changes it.
   */
  lemma {:induction false} DoneIsFinal<Row>(trace: seq<Event<Row>>, later: seq<Event<Row>>, k: nat)
    requires k < |After(trace).futures| && After(trace).futures[k].Done()
    ensures k < |After(trace + later).futures| && After(trace + later).futures[k] == After(trace).futures[k]
    decreases |later|
  {
    if later == [] {
      assert trace + later == trace;
    } else {
      var init := later[..|later| - 1];
      assert (trace + later)[..|trace + later| - 1] == trace + init;
      DoneIsFinal(trace, init, k);
      hide After;
      StepKeepsDone(After(trace + init), later[|later| - 1], k);
    }
  }

  lemma StepKeepsDone<Row>(t: Table<Row>, e: Event<Row>, k: nat)
    requires k < |t.futures| && t.futures[k].Done()
    ensures k < |Next(t, e).futures| && Next(t, e).futures[k] == t.futures[k]
  {
    hide Classify;
  }

  /**
   * A future that succeeds does so at an End for its own id, and its result is exactly the rows received
   * for that id since its registration, in order: none lost, none from another request.
   */
  lemma SuccessCarriesItsRows<Row>(trace: seq<Event<Row>>, n: nat)
    requires |trace| > 0 && RegistersAt(trace[..|trace| - 1], n)
    requires var k := Registrations(trace[..n]);
             k < |After(trace[..|trace| - 1]).futures| && !After(trace[..|trace| - 1]).futures[k].Succeeded?
    requires Registrations(trace[..n]) < |After(trace).futures| && After(trace).futures[Registrations(trace[..n])].Succeeded?
    ensures trace[|trace| - 1] == End(trace[n].id)
    ensures After(trace).futures[Registrations(trace[..n])] == Succeeded(RowsFor(trace[n + 1..|trace| - 1], trace[n].id))
  {
    var init, last := trace[..|trace| - 1], trace[|trace| - 1];
    assert init[..n] == trace[..n];
    RequestsAreIndependent(init, n);
    RequestsAreIndependent(trace, n);
    assert LifeOf(trace, n) == Lived(LifeOf(init, n), trace[n].id, Registrations(trace[..n]), last);
    assert init[n + 1..] == trace[n + 1..|trace| - 1];
    hide After, Classify, Registrations;
    if LifeOf(init, n).live { LiveRows(init, n); }
  }

  // ----- where an error ends up -----

  /** The futures that in-flight requests still wait for. */
  ghost predicate WaitsFor<Row>(t: Table<Row>, id: int)
    requires Valid(t)
  {
    id in t.pending && t.futures[t.pending[id].ticket].Waiting?
  }

  predicate Targeted(r: Option<int>) { r.Some? && r.value > 0 }

  /** The error is on the record that a reader would consult for it. */
  predicate OnRecord<Row>(t: Table<Row>, r: Option<int>, e: IbError) {
    if Targeted(r) then r.value in t.requestErrors && t.requestErrors[r.value] == e
    else t.unattributed == Some(e)
  }

  /** Someone can learn of the error after it: a future that was waiting and shows it, or the record. */
  ghost predicate LeavesATrace<Row>(t: Table<Row>, t': Table<Row>, r: Option<int>, e: IbError)
    requires |t'.futures| == |t.futures|
  {
    || (exists k :: 0 <= k < |t.futures| && t.futures[k].Waiting? && t'.futures[k] == Future<Row>.FailedWith(e))
    || OnRecord(t', r, e)
  }

  /**
   * Where an error goes, and what it leaves alone. A notice changes nothing. Any other error is delivered
   * to the request in flight under its id, or kept under its id, or fails everything in flight, or is kept
   * as untargeted: one of the four, decided by the id, the class and the table. No other future, entry or
   * record moves.
   */
  lemma ErrorsAreRouted<Row>(t: Table<Row>, r: Option<int>, code: int, message: string)
    requires Valid(t)
    ensures var t' := Next(t, ErrorCallback(r, code, message));
            var kind := Classify(code, message);
            && |t'.futures| == |t.futures| && t'.nextRequest == t.nextRequest && t'.nextOrder == t.nextOrder
            && (kind.None? ==> t' == t)
            && (kind.Some? ==>
                  var e := IbError(kind.value, code, message);
                  && (Targeted(r) && r.value in t.pending ==>
                        var k := t.pending[r.value].ticket;
                        t' == t.(pending := t.pending - {r.value}, futures := t.futures[k := t.futures[k].SetException(e)]))
                  && (Targeted(r) && r.value !in t.pending ==> t' == t.(requestErrors := t.requestErrors[r.value := e]))
                  && (!Targeted(r) && kind.value.Connection? ==>
                        && t'.pending == map[] && t'.requestErrors == t.requestErrors && t'.unattributed == t.unattributed
                        && (forall id :: id in t.pending ==>
                              t'.futures[t.pending[id].ticket] == t.futures[t.pending[id].ticket].SetException(e))
                        && (forall k :: 0 <= k < |t.futures| && k !in InFlight(t) ==> t'.futures[k] == t.futures[k]))
                  && (!Targeted(r) && !kind.value.Connection? ==> t' == t.(unattributed := Some(e))))
  {
    hide Classify;
  }

  /**
   * An error that is no notice leaves a trace if and only if it is untargeted and not a connection error,
   * or aimed at an id with no entry, or aimed at an entry whose future still waits, or a connection error
   * with some future still waiting in flight, or the very same error was on record already. Otherwise
   * nobody ever learns of it.
   */
  lemma ErrorIsKeptExactlyWhen<Row>(t: Table<Row>, r: Option<int>, code: int, message: string)
    requires Valid(t) && Classify(code, message).Some?
    ensures var e := IbError(Classify(code, message).value, code, message);
            var t' := Next(t, ErrorCallback(r, code, message));
            |t'.futures| == |t.futures|
            && (LeavesATrace(t, t', r, e) <==>
                  || (!Targeted(r) && !e.kind.Connection?)
                  || (Targeted(r) && r.value !in t.pending)
                  || (Targeted(r) && WaitsFor(t, r.value))
                  || (!Targeted(r) && e.kind.Connection? && exists id :: WaitsFor(t, id))
                  || OnRecord(t, r, e))
  {
    ErrorsAreRouted(t, r, code, message);
    hide Classify, Next;
    var e := IbError(Classify(code, message).value, code, message);
    var t' := Next(t, ErrorCallback(r, code, message));
    if Targeted(r) && WaitsFor(t, r.value) {
      assert t'.futures[t.pending[r.value].ticket] == Future<Row>.FailedWith(e);
    }
    if !Targeted(r) && e.kind.Connection? {
      if id :| WaitsFor(t, id) {
        assert t'.futures[t.pending[id].ticket] == Future<Row>.FailedWith(e);
      }
      if k :| 0 <= k < |t.futures| && t.futures[k].Waiting? && t'.futures[k] == Future<Row>.FailedWith(e) {
        assert k in InFlight(t);
        var id :| id in t.pending && t.pending[id].ticket == k;
        assert WaitsFor(t, id);
      }
    }
  }

  /**
   * A request that times out leaves its entry behind, so a refusal that arrives late finds the entry, skips
   * its future and is recorded nowhere: apart from that entry the table is the one the timeout left.
   */
  lemma LateRefusalIsLost()
    ensures var timedOut: Table<int> := After([Event<int>.Register(1), TimedOut(0)]);
            var late: Table<int> := After([Event<int>.Register(1), TimedOut(0), ErrorCallback(Some(1), 200, "")]);
            && Classify(200, "") == Some(Contract)
            && late == timedOut.(pending := map[])
            && timedOut.futures == late.futures == [Abandoned]
            && late.requestErrors == map[] && late.unattributed.None?
  {
    var a, b, c := Event<int>.Register(1), Event<int>.TimedOut(0), Event<int>.ErrorCallback(Some(1), 200, "");
    assert [a, b, c][..2] == [a, b] && [a, b][..1] == [a] && [a][..0] == [];
    assert After([a]) == Next(Opening(), a);
    assert After([a, b]) == Next(After([a]), b);
    assert After([a, b, c]) == Next(After([a, b]), c);
  }

  // ----- identifiers -----

  /** The ids handed out by Allocate, in order. */
  function Allocated<Row>(trace: seq<Event<Row>>): seq<int> {
    if trace == [] then []
    else
      var earlier := Allocated(trace[..|trace| - 1]);
      if trace[|trace| - 1].Allocate? then earlier + [After(trace).nextRequest] else earlier
  }

  lemma RequestCounter<Row>(t: Table<Row>, e: Event<Row>)
    ensures Next(t, e).nextRequest == t.nextRequest + if e.Allocate? then 1 else 0
  {
    hide Classify;
  }

  /** Allocated ids are consecutive from 1001 on, so they never repeat and never equal the two fixed ids. */
  lemma {:induction false} AllocatedIdsAreFresh<Row>(trace: seq<Event<Row>>)
    ensures var ids := Allocated(trace);
            && After(trace).nextRequest == FIRST_REQUEST + |ids|
            && (forall i :: 0 <= i < |ids| ==> ids[i] == FIRST_REQUEST + 1 + i)
            && POSITION_REQUEST !in ids && OPEN_ORDERS_REQUEST !in ids
  {
    if trace != [] {
      hide Next;
      AllocatedIdsAreFresh(trace[..|trace| - 1]);
      RequestCounter(After(trace[..|trace| - 1]), trace[|trace| - 1]);
    }
  }

  // ----- order ids -----

  /** The id the broker issued last, and how often one was taken since. */
  datatype Issue = Issue(first: int, taken: nat)

  function IssuedBy<Row>(earlier: Option<Issue>, e: Event<Row>): Option<Issue> {
    match e
    case NextValidId(id) => Some(Issue(id, 0))
    case TakeOrderId => if earlier.Some? then Some(Issue(earlier.value.first, earlier.value.taken + 1)) else None
    case _ => earlier
  }

  function Issued<Row>(trace: seq<Event<Row>>): Option<Issue> {
    if trace == [] then None else IssuedBy(Issued(trace[..|trace| - 1]), trace[|trace| - 1])
  }

  function Upcoming(issue: Option<Issue>): Option<int> {
    if issue.Some? then Some(issue.value.first + issue.value.taken) else None
  }

  lemma OrderCounter<Row>(t: Table<Row>, e: Event<Row>, issue: Option<Issue>)
    requires t.nextOrder == Upcoming(issue)
    ensures Next(t, e).nextOrder == Upcoming(IssuedBy(issue, e))
  {
    hide Classify;
  }

  /**
   * The id handed out next is the one the broker issued last, moved on by one for each taken since; so between two
   * issues the ids handed out are consecutive from the first, whatever else happens, and before any issue there is none.
   */
  lemma {:induction false} OrderIdsAreConsecutive<Row>(trace: seq<Event<Row>>)
    ensures After(trace).nextOrder == Upcoming(Issued(trace))
  {
    if trace != [] {
      hide Next, IssuedBy;
      OrderIdsAreConsecutive(trace[..|trace| - 1]);
      OrderCounter(After(trace[..|trace| - 1]), trace[|trace| - 1], Issued(trace[..|trace| - 1]));
    }
  }

  /** A closed connection fails every request in flight that still waits, as a connection error, and empties the table. */
  lemma ClosingFailsAll<Row>(t: Table<Row>, id: int)
    requires Valid(t) && id in t.pending
    ensures var t', k := Next(t, ConnectionClosed), t.pending[id].ticket;
            && t'.pending == map[] && |t'.futures| == |t.futures|
            && (t.futures[k].Waiting? ==> t'.futures[k].FailedWith? && t'.futures[k].error.kind.Connection?
                                          && t'.futures[k].error.message == "IBKR connection closed")
            && (!t.futures[k].Waiting? ==> t'.futures[k] == t.futures[k])
            && t'.nextRequest == t.nextRequest && t'.nextOrder == t.nextOrder
            && t'.requestErrors == t.requestErrors && t'.unattributed == t.unattributed
  {}
}
