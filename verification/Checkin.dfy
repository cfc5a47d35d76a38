/** Check-ins with the central app: which parts a host sends, what it believes
    was received, and how both sides come to agree (cmd/rest-o-matic/checkin.go,
    internal/state/state.go, internal/central/messages.go). */
module Checkin {
  import opened Wrappers
  import opened Schedule
  import opened StateFile

  const PARTS: seq<Part> := [StatusPart, SnapshotsPart, ConfigPart]

  /** A fingerprint of content; SHA-256 is taken to tell contents apart. */
  type Fingerprint = string -> string

  ghost predicate Faithful(fp: Fingerprint) {
    forall x, y :: fp(x) == fp(y) ==> x == y
  }

  /** What the host would report now. A config holding plain-text secrets is withheld. */
  datatype Contents = Contents(status: string, snapshots: string, config: string, withheld: bool) {
    function Of(part: Part): string
      requires part in PARTS
    {
      if part == StatusPart then status else if part == SnapshotsPart then snapshots else config
    }

    predicate Sendable(part: Part) {
      part in PARTS && (part == ConfigPart ==> !withheld)
    }
  }

  /** Every part's fingerprint, the content of those included, and whether the
      config is said to be withheld. */
  datatype Request = Request(hostID: string, fingerprints: map<Part, string>, included: map<Part, string>, withheld: bool)

  /** Indexing a Go map: "" for a part never acknowledged. */
  function Acknowledged(c: CheckinState, part: Part): string {
    if part in c.acknowledged then c.acknowledged[part] else ""
  }

  /** all asks for every part, as printing a check-in does. */
  predicate Wanted(c: CheckinState, part: Part, fingerprint: string, all: bool) {
    all || Acknowledged(c, part) != fingerprint || part in c.resend
  }

  /** One part of a request. */
  function WithPart(req: Request, c: CheckinState, part: Part, fingerprint: string, content: string,
                    sendable: bool, all: bool): Request {
    Request(req.hostID, req.fingerprints[part := fingerprint],
            if sendable && Wanted(c, part, fingerprint, all) then req.included[part := content] else req.included,
            !sendable)
  }

  function Build(fp: Fingerprint, c: CheckinState, x: Contents, all: bool): Request {
    var r1 := WithPart(Request(c.hostID, map[], map[], false), c, StatusPart, fp(x.status), x.status, true, all);
    var r2 := WithPart(r1, c, SnapshotsPart, fp(x.snapshots), x.snapshots, true, all);
    WithPart(r2, c, ConfigPart, fp(x.config), x.config, !x.withheld, all)
  }

  /** What a request says of each part: always its fingerprint, and its content
      exactly when it may be sent and has changed or been asked for. */
  lemma BuildOf(fp: Fingerprint, c: CheckinState, x: Contents, all: bool, part: Part)
    ensures var req := Build(fp, c, x, all);
            && req.hostID == c.hostID && (req.withheld <==> x.withheld)
            && (part in req.fingerprints <==> part in PARTS)
            && (part in PARTS ==> req.fingerprints[part] == fp(x.Of(part)))
            && (part in req.included <==>
                  && x.Sendable(part)
                  && (all || part in c.resend || Acknowledged(c, part) != fp(x.Of(part))))
            && (part in req.included ==> req.included[part] == x.Of(part))
  {
  }

  method IsWanted(c: CheckinState, part: Part, fingerprint: string, all: bool) returns (b: bool)
    ensures b == Wanted(c, part, fingerprint, all)
  {
    if all || Acknowledged(c, part) != fingerprint {
      return true;
    }
    for i := 0 to |c.resend|
      invariant part !in c.resend[..i]
    {
      if c.resend[i] == part {
        return true;
      }
    }
    assert c.resend[..|c.resend|] == c.resend;
    return false;
  }

  method AddPart(req: Request, c: CheckinState, part: Part, fingerprint: string, content: string, sendable: bool, all: bool)
    returns (r: Request)
    ensures r == WithPart(req, c, part, fingerprint, content, sendable, all)
  {
    r := req.(fingerprints := req.fingerprints[part := fingerprint], withheld := !sendable);
    if sendable {
      var want := IsWanted(c, part, fingerprint, all);
      if want {
        r := r.(included := r.included[part := content]);
      }
    }
  }

  /** buildCheckin, filling in the request part by part. */
  method BuildCheckin(fp: Fingerprint, c: CheckinState, x: Contents, all: bool) returns (req: Request)
    ensures req == Build(fp, c, x, all)
  {
    hide WithPart;
    req := AddPart(Request(c.hostID, map[], map[], false), c, StatusPart, fp(x.status), x.status, true, all);
    req := AddPart(req, c, SnapshotsPart, fp(x.snapshots), x.snapshots, true, all);
    req := AddPart(req, c, ConfigPart, fp(x.config), x.config, !x.withheld, all);
  }

  /** The fingerprints of the parts a request carried: what a reply acknowledges. */
  function Sent(req: Request): map<Part, string> {
    map part | part in req.included && part in req.fingerprints :: req.fingerprints[part]
  }

  // ----- checkIn -----

  /** What becomes of a request sent: an error, or the reply. */
  datatype Answer = NoAnswer(error: string) | Answered(resend: seq<Part>)

  /** What checkIn gives back; sent is None when the state could not be read. */
  datatype Outgoing = Outgoing(sent: Option<Request>, wasFailing: bool, error: string, recorded: bool)

  /** checkIn: one request for this enrolment, recorded however it goes. */
  method CheckIn(fp: Fingerprint, store: Store, hostID: string, x: Contents, now: Time, answer: Answer) returns (r: Outgoing)
    requires answer.NoAnswer? ==> answer.error != ""
    modifies store
    ensures r.sent.Some? ==> r.sent.value == Build(fp, CheckinFor(old(store.Contents()), hostID), x, false)
    ensures r.error == "" <==> r.sent.Some? && answer.Answered?
    ensures store.sound && !old(store.damaged) ==> r.sent.Some? && r.recorded
    ensures r.recorded ==>
              store.Contents() == After(if r.error == "" then RecordCheckin(hostID, now, Sent(r.sent.value), answer.resend, "")
                                        else RecordCheckin(hostID, now, map[], [], r.error), old(store.Contents()))
    ensures r.recorded ==> r.wasFailing == (CheckinFor(old(store.Contents()), hostID).lastError != "")
    ensures !r.recorded ==> store.file == old(store.file)
  {
    hide Build, After, WithCheckin, Sent, PARTS;
    var st := store.Load();
    if st.None? {
      var wasFailing, ok := store.RecordCheckin(hostID, now, map[], [], UNREADABLE);
      return Outgoing(None, wasFailing, UNREADABLE, ok);
    }
    var req := BuildCheckin(fp, CheckinFor(st.value, hostID), x, false);
    if answer.NoAnswer? {
      var wasFailing, ok := store.RecordCheckin(hostID, now, map[], [], answer.error);
      return Outgoing(Some(req), wasFailing, answer.error, ok);
    }
    OnlyParts(fp, CheckinFor(st.value, hostID), x);
    var acked := Included(req);
    var wasFailing, ok := store.RecordCheckin(hostID, now, acked, answer.resend, "");
    return Outgoing(Some(req), wasFailing, "", ok);
  }

  const UNREADABLE := "reading the state"

  lemma OnlyParts(fp: Fingerprint, c: CheckinState, x: Contents)
    ensures forall part :: part in Build(fp, c, x, false).included ==> part in PARTS
  {
    forall part
      ensures part in Build(fp, c, x, false).included ==> part in PARTS
    {
      BuildOf(fp, c, x, false, part);
    }
  }

  /** The loop over the parts included. */
  method Included(req: Request) returns (sent: map<Part, string>)
    ensures forall part :: part in sent <==> part in PARTS && part in req.included && part in req.fingerprints
    ensures forall part :: part in sent ==> sent[part] == req.fingerprints[part]
    ensures (forall part :: part in req.included ==> part in PARTS) ==> sent == Sent(req)
  {
    sent := map[];
    for i := 0 to |PARTS|
      invariant forall part :: part in sent <==> part in PARTS[..i] && part in req.included && part in req.fingerprints
      invariant forall part :: part in sent ==> sent[part] == req.fingerprints[part]
    {
      if PARTS[i] in req.included && PARTS[i] in req.fingerprints {
        sent := sent[PARTS[i] := req.fingerprints[PARTS[i]]];
      }
    }
    assert PARTS[..|PARTS|] == PARTS;
  }

  datatype Message = Quiet | Warned | Working

  /** checkInFromTick: prints only when check-ins start failing or start
      working again. */
  method CheckInFromTick(fp: Fingerprint, store: Store, hostID: string, x: Contents, now: Time, answer: Answer) returns (said: Message)
    requires answer.NoAnswer? ==> answer.error != ""
    requires store.sound && !store.damaged
    modifies store
    ensures var failed, failing := answer.NoAnswer?, CheckinFor(old(store.Contents()), hostID).lastError != "";
            said == if failed == failing then Quiet else if failed then Warned else Working
    ensures CheckinFor(store.Contents(), hostID).lastError != "" <==> answer.NoAnswer?
  {
    hide Build;
    var r := CheckIn(fp, store, hostID, x, now, answer);
    if r.error != "" && !r.wasFailing {
      return Warned;
    }
    if r.error == "" && r.wasFailing {
      return Working;
    }
    return Quiet;
  }

  // ----- Overlapping check-ins: what an acknowledgement means -----

  datatype Flight = Flight(req: Request, delivered: bool)

  /** The record in the state file, the requests on their way, and every part
      the central app has ever received in full. */
  datatype Link = Link(record: Option<CheckinState>, flights: seq<Flight>, received: set<(string, Part, string)>)

  datatype Event =
    | Send(hostID: string, x: Contents)
    | Deliver(i: nat)
    | Reply(i: nat, resend: seq<Part>, at: Time)
    | Fail(i: nat, error: string, at: Time)
    | Forget                                        // the state file is deleted

  function RecordFor(record: Option<CheckinState>, hostID: string): CheckinState {
    CheckinFor(State(None, map[], record, None), hostID)
  }

  predicate Possible(s: Link, e: Event) {
    match e
    case Send(_, _) => true
    case Deliver(i) => i < |s.flights|
    case Reply(i, _, _) => i < |s.flights| && s.flights[i].delivered
    case Fail(i, error, _) => i < |s.flights| && error != ""
    case Forget => true
  }

  function Happen(fp: Fingerprint, s: Link, e: Event): Link
    requires Possible(s, e)
  {
    match e
    case Send(hostID, x) => s.(flights := s.flights + [Flight(Build(fp, RecordFor(s.record, hostID), x, false), false)])
    case Deliver(i) =>
      var req := s.flights[i].req;
      s.(flights := s.flights[i := Flight(req, true)],
         received := s.received + set part | part in req.included :: (req.hostID, part, req.included[part]))
    case Reply(i, resend, at) =>
      var req := s.flights[i].req;
      s.(record := Some(WithCheckin(RecordFor(s.record, req.hostID), at, Sent(req), resend, "")))
    case Fail(i, error, at) =>
      s.(record := Some(WithCheckin(RecordFor(s.record, s.flights[i].req.hostID), at, map[], [], error)))
    case Forget => s.(record := None)
  }

  /** A reply, or a failure, changes the record as recording the check-in in the
      state file does, and a request is built from the record there. */
  lemma HappensAsRecorded(fp: Fingerprint, s: Link, e: Event, st: State)
    requires Possible(s, e) && st.checkin == s.record
    ensures var t := Happen(fp, s, e);
            && (e.Send? ==> t == s.(flights := s.flights + [Flight(Build(fp, CheckinFor(st, e.hostID), e.x, false), false)]))
            && (e.Reply? ==> var req := s.flights[e.i].req;
                             t == s.(record := After(RecordCheckin(req.hostID, e.at, Sent(req), e.resend, ""), st).checkin))
            && (e.Fail? ==> t == s.(record := After(RecordCheckin(s.flights[e.i].req.hostID, e.at, map[], [], e.error), st).checkin))
  {
    hide Build;
  }

  ghost predicate Linked(fp: Fingerprint, ls: seq<Link>) {
    && ls != [] && ls[0] == Link(None, [], {})
    && forall i :: 0 <= i < |ls| - 1 ==> exists e :: Possible(ls[i], e) && ls[i + 1] == Happen(fp, ls[i], e)
  }

  ghost predicate Received(fp: Fingerprint, s: Link, hostID: string, part: Part, fingerprint: string) {
    exists content :: (hostID, part, content) in s.received && fp(content) == fingerprint
  }

  ghost predicate FlightsOk(fp: Fingerprint, s: Link) {
    forall i :: 0 <= i < |s.flights| ==>
      var f := s.flights[i];
      (forall part :: part in f.req.included ==>
            && part in f.req.fingerprints && f.req.fingerprints[part] == fp(f.req.included[part])
            && (f.delivered ==> (f.req.hostID, part, f.req.included[part]) in s.received))
  }

  ghost predicate AcksOk(fp: Fingerprint, s: Link) {
    s.record.Some? ==>
      forall part :: part in s.record.value.acknowledged ==>
        Received(fp, s, s.record.value.hostID, part, s.record.value.acknowledged[part])
  }

  lemma HappenKeepsFlights(fp: Fingerprint, s: Link, e: Event)
    requires FlightsOk(fp, s) && Possible(s, e)
    ensures FlightsOk(fp, Happen(fp, s, e)) && s.received <= Happen(fp, s, e).received
  {
    hide RecordFor, WithCheckin, Sent;
  }

  /** A record of the host's acknowledges only what was on record, or in the
      request replied to. */
  lemma Acknowledges(fp: Fingerprint, s: Link, e: Event, part: Part)
    requires Possible(s, e) && Happen(fp, s, e).record.Some? && part in Happen(fp, s, e).record.value.acknowledged
    ensures var c := Happen(fp, s, e).record.value;
            || (e.Reply? && c.hostID == s.flights[e.i].req.hostID
                && part in Sent(s.flights[e.i].req) && c.acknowledged[part] == Sent(s.flights[e.i].req)[part])
            || (s.record.Some? && c.hostID == s.record.value.hostID
                && part in s.record.value.acknowledged && c.acknowledged[part] == s.record.value.acknowledged[part])
  {
    hide Build, Sent;
  }

  lemma HappenKeeps(fp: Fingerprint, s: Link, e: Event)
    requires FlightsOk(fp, s) && AcksOk(fp, s) && Possible(s, e)
    ensures FlightsOk(fp, Happen(fp, s, e)) && AcksOk(fp, Happen(fp, s, e))
    ensures s.received <= Happen(fp, s, e).received
  {
    hide Happen;
    HappenKeepsFlights(fp, s, e);
    var t := Happen(fp, s, e);
    if t.record.Some? {
      var c := t.record.value;
      forall part | part in c.acknowledged
        ensures Received(fp, t, c.hostID, part, c.acknowledged[part])
      {
        Acknowledges(fp, s, e, part);
        if e.Reply? && c.hostID == s.flights[e.i].req.hostID && part in Sent(s.flights[e.i].req)
           && c.acknowledged[part] == Sent(s.flights[e.i].req)[part] {
          var req := s.flights[e.i].req;
          assert (req.hostID, part, req.included[part]) in t.received;
        } else {
          assert Received(fp, s, c.hostID, part, c.acknowledged[part]);
        }
      }
    }
  }

  lemma {:induction false} LinkInvariant(fp: Fingerprint, ls: seq<Link>, i: nat)
    requires Linked(fp, ls) && i < |ls|
    ensures FlightsOk(fp, ls[i]) && AcksOk(fp, ls[i])
  {
    hide FlightsOk, AcksOk, Possible, Happen;
    if i == 0 {
      NothingYet(fp);
    } else {
      LinkInvariant(fp, ls, i - 1);
      StepKeeps(fp, ls, i - 1);
    }
  }

  lemma NothingYet(fp: Fingerprint)
    ensures FlightsOk(fp, Link(None, [], {})) && AcksOk(fp, Link(None, [], {}))
  {
  }

  lemma StepKeeps(fp: Fingerprint, ls: seq<Link>, i: nat)
    requires Linked(fp, ls) && i + 1 < |ls| && FlightsOk(fp, ls[i]) && AcksOk(fp, ls[i])
    ensures FlightsOk(fp, ls[i + 1]) && AcksOk(fp, ls[i + 1])
  {
    hide FlightsOk, AcksOk;
    var e :| Possible(ls[i], e) && ls[i + 1] == Happen(fp, ls[i], e);
    HappenKeeps(fp, ls[i], e);
  }

  /** However check-ins overlap, and whichever requests and replies are lost,
      every fingerprint on record as acknowledged is of content the central app
      has received in full under that host ID, across enrolments too. */
  lemma AcknowledgedWasReceived(fp: Fingerprint, ls: seq<Link>, i: nat, part: Part)
    requires Linked(fp, ls) && i < |ls| && ls[i].record.Some? && part in ls[i].record.value.acknowledged
    ensures exists content :: (ls[i].record.value.hostID, part, content) in ls[i].received
                           && fp(content) == ls[i].record.value.acknowledged[part]
  {
    LinkInvariant(fp, ls, i);
    assert Received(fp, ls[i], ls[i].record.value.hostID, part, ls[i].record.value.acknowledged[part]);
  }

  // ----- One check-in after another: coming to agree -----

  datatype Stored = Stored(fingerprint: string, content: string)

  /** What the central app keeps of one host, by part. */
  type Server = map<Part, Stored>

  function Receive(server: Server, req: Request): Server {
    map part | part in server.Keys + req.included.Keys ::
      if part in req.included && part in req.fingerprints then Stored(req.fingerprints[part], req.included[part])
      else if part in server then server[part]
      else Stored("", "")
  }

  predicate Stale(server: Server, req: Request, part: Part) {
    part in req.fingerprints && (part !in server || server[part].fingerprint != req.fingerprints[part])
  }

  /** The central app asks again for any part it does not hold as announced. */
  function Resend(server: Server, req: Request): seq<Part> {
    (if Stale(server, req, StatusPart) then [StatusPart] else [])
    + (if Stale(server, req, SnapshotsPart) then [SnapshotsPart] else [])
    + (if Stale(server, req, ConfigPart) then [ConfigPart] else [])
  }

  datatype Outcome = Completed | RequestLost | ReplyLost

  datatype Sides = Sides(host: CheckinState, server: Server)

  function Round(fp: Fingerprint, s: Sides, x: Contents, outcome: Outcome, at: Time): Sides {
    var req := Build(fp, s.host, x, false);
    var server := if outcome == RequestLost then s.server else Receive(s.server, req);
    var host :=
      if outcome == Completed then WithCheckin(s.host, at, Sent(req), Resend(server, req), "")
      else WithCheckin(s.host, at, map[], [], "failed");
    Sides(host, server)
  }

  /** A round leaves the host's record as checkIn does. */
  lemma RoundIsCheckIn(fp: Fingerprint, s: Sides, x: Contents, outcome: Outcome, at: Time, st: State)
    requires CheckinFor(st, s.host.hostID) == s.host
    ensures var t, req := Round(fp, s, x, outcome, at), Build(fp, CheckinFor(st, s.host.hostID), x, false);
            t.host == CheckinFor(After(if outcome == Completed then RecordCheckin(s.host.hostID, at, Sent(req), Resend(t.server, req), "")
                                       else RecordCheckin(s.host.hostID, at, map[], [], "failed"), st), s.host.hostID)
            && t.server == if outcome == RequestLost then s.server else Receive(s.server, req)
  {
    hide Build, Resend;
  }

  function Rounds(fp: Fingerprint, s: Sides, x: Contents, outcomes: seq<Outcome>, at: Time): Sides {
    if outcomes == [] then s
    else Round(fp, Rounds(fp, s, x, outcomes[..|outcomes| - 1], at), x, outcomes[|outcomes| - 1], at)
  }

  function CompletedIn(outcomes: seq<Outcome>): nat {
    if outcomes == [] then 0
    else CompletedIn(outcomes[..|outcomes| - 1]) + if outcomes[|outcomes| - 1] == Completed then 1 else 0
  }

  lemma {:induction false} CompletedAre(outcomes: seq<Outcome>)
    ensures CompletedIn(outcomes) == |set i: nat | i < |outcomes| && outcomes[i] == Completed|
  {
    if outcomes != [] {
      var n := |outcomes| - 1;
      CompletedAre(outcomes[..n]);
      var before := set i: nat | i < n && outcomes[..n][i] == Completed;
      var all := set i: nat | i < |outcomes| && outcomes[i] == Completed;
      assert all == before + if outcomes[n] == Completed then {n} else {};
    }
  }

  predicate Holds(fp: Fingerprint, s: Sides, x: Contents, part: Part)
    requires part in PARTS
  {
    part in s.server && s.server[part] == Stored(fp(x.Of(part)), x.Of(part))
  }

  /** What the central app stored was fingerprinted by the host that sent it. */
  predicate WellStored(fp: Fingerprint, server: Server) {
    forall part :: part in server ==> server[part].fingerprint == fp(server[part].content)
  }

  /** After one completed check-in: acknowledged, and held or asked for again. */
  predicate Settling(fp: Fingerprint, s: Sides, x: Contents) {
    forall part :: part in PARTS && x.Sendable(part) ==>
      Acknowledged(s.host, part) == fp(x.Of(part)) && (Holds(fp, s, x, part) || part in s.host.resend)
  }

  /** Host and central app agree on every part that may be sent, and nothing is asked for. */
  predicate Agreed(fp: Fingerprint, s: Sides, x: Contents) {
    forall part :: part in PARTS && x.Sendable(part) ==>
      Acknowledged(s.host, part) == fp(x.Of(part)) && Holds(fp, s, x, part) && part !in s.host.resend
  }

  lemma ResendIsStale(server: Server, req: Request, part: Part)
    requires part in PARTS
    ensures part in Resend(server, req) <==> Stale(server, req, part)
  {
  }

  /** And what the central app then holds. */
  lemma ReceiveOf(server: Server, req: Request, part: Part)
    requires part in req.fingerprints
    ensures var after := Receive(server, req);
            && (part in req.included ==> part in after && after[part] == Stored(req.fingerprints[part], req.included[part]))
            && (part !in req.included ==> (part in after <==> part in server) && (part in server ==> after[part] == server[part]))
  {
  }

  lemma SentOf(c: CheckinState, req: Request, at: Time, resend: seq<Part>, part: Part)
    requires part in req.fingerprints
    ensures var t := WithCheckin(c, at, Sent(req), resend, "");
            t.resend == resend &&
            Acknowledged(t, part) == if part in req.included then req.fingerprints[part] else Acknowledged(c, part)
  {
  }

  lemma FailedOf(c: CheckinState, at: Time, part: Part)
    ensures var t := WithCheckin(c, at, map[], [], "failed");
            t.resend == c.resend && Acknowledged(t, part) == Acknowledged(c, part)
  {
  }

  /** One part, one round. */
  lemma PartRound(fp: Fingerprint, s: Sides, x: Contents, outcome: Outcome, at: Time, part: Part)
    requires Faithful(fp) && WellStored(fp, s.server) && part in PARTS && x.Sendable(part)
    ensures var t := Round(fp, s, x, outcome, at);
            && (Holds(fp, s, x, part) ==> Holds(fp, t, x, part))
            && (outcome == Completed ==> Acknowledged(t.host, part) == fp(x.Of(part))
                                         && (part in t.host.resend <==> !Holds(fp, t, x, part)))
            && (outcome == Completed && part in s.host.resend ==> Holds(fp, t, x, part))
            && (outcome != Completed ==> Acknowledged(t.host, part) == Acknowledged(s.host, part)
                                         && (part in t.host.resend <==> part in s.host.resend))
  {
    hide Build, Receive, Resend, Sent, Contents.Sendable, Contents.Of, WithCheckin, Acknowledged;
    var req := Build(fp, s.host, x, false);
    var server := Receive(s.server, req);
    BuildOf(fp, s.host, x, false, part);
    ReceiveOf(s.server, req, part);
    if outcome == Completed {
      SentOf(s.host, req, at, Resend(server, req), part);
      ResendIsStale(server, req, part);
    } else {
      FailedOf(s.host, at, part);
    }
  }

  lemma RoundStaysWellStored(fp: Fingerprint, s: Sides, x: Contents, outcome: Outcome, at: Time)
    requires WellStored(fp, s.server)
    ensures WellStored(fp, Round(fp, s, x, outcome, at).server)
  {
    hide WithCheckin, Resend, Build;
    var req := Build(fp, s.host, x, false);
    forall part
      ensures part in req.included ==> part in req.fingerprints && req.fingerprints[part] == fp(req.included[part])
    {
      BuildOf(fp, s.host, x, false, part);
    }
  }

  lemma RoundProgress(fp: Fingerprint, s: Sides, x: Contents, outcome: Outcome, at: Time)
    requires Faithful(fp) && WellStored(fp, s.server)
    ensures var t := Round(fp, s, x, outcome, at);
            && (outcome == Completed ==> Settling(fp, t, x))
            && (Settling(fp, s, x) ==> Settling(fp, t, x))
            && (Settling(fp, s, x) && outcome == Completed ==> Agreed(fp, t, x))
            && (Agreed(fp, s, x) ==> Agreed(fp, t, x))
  {
    hide Round, Holds, WellStored, Faithful;
    forall part | part in PARTS && x.Sendable(part) {
      PartRound(fp, s, x, outcome, at, part);
    }
  }

  lemma {:induction false} RoundsProgress(fp: Fingerprint, s: Sides, x: Contents, outcomes: seq<Outcome>, at: Time)
    requires Faithful(fp) && WellStored(fp, s.server)
    ensures var t := Rounds(fp, s, x, outcomes, at);
            && WellStored(fp, t.server)
            && (CompletedIn(outcomes) >= 1 ==> Settling(fp, t, x))
            && (CompletedIn(outcomes) >= 2 ==> Agreed(fp, t, x))
  {
    hide Round, WellStored, Faithful, Settling, Agreed;
    if outcomes != [] {
      var n := |outcomes| - 1;
      RoundsProgress(fp, s, x, outcomes[..n], at);
      var mid := Rounds(fp, s, x, outcomes[..n], at);
      RoundProgress(fp, mid, x, outcomes[n], at);
      RoundStaysWellStored(fp, mid, x, outcomes[n], at);
    }
  }

  /** Main result: from any record and anything the server may hold, so long as
      the fingerprints it stored are those of what it stored, once two check-ins
      of unchanged contents have completed, with any number lost before,
      between and after them, the central app holds every part that may be
      sent exactly as the host has it, and every later check-in carries none. */
  lemma TwoCheckinsAgree(fp: Fingerprint, s: Sides, x: Contents, outcomes: seq<Outcome>, at: Time)
    requires Faithful(fp) && WellStored(fp, s.server) && CompletedIn(outcomes) >= 2
    ensures var t := Rounds(fp, s, x, outcomes, at);
            && (forall part :: part in PARTS && x.Sendable(part) ==>
                  part in t.server && t.server[part].content == x.Of(part))
            && Build(fp, t.host, x, false).included == map[]
  {
    RoundsProgress(fp, s, x, outcomes, at);
    var t := Rounds(fp, s, x, outcomes, at);
    hide Rounds, Round, WellStored, Faithful;
    assert Agreed(fp, t, x);
    var req := Build(fp, t.host, x, false);
    forall part
      ensures part !in req.included
    {
      BuildOf(fp, t.host, x, false, part);
    }
  }

  /** One is not enough: a central app that lost its database is told nothing
      by a host whose contents have not changed, and can only ask. */
  lemma OneCheckinIsNotEnough(fp: Fingerprint, x: Contents, hostID: string, at: Time)
    ensures var acked := map[StatusPart := fp(x.status), SnapshotsPart := fp(x.snapshots), ConfigPart := fp(x.config)];
            var s := Sides(CheckinState(hostID, None, None, "", acked, []), map[]);
            var t := Rounds(fp, s, x, [Completed], at);
            t.server == map[] && StatusPart in t.host.resend
  {
    var acked := map[StatusPart := fp(x.status), SnapshotsPart := fp(x.snapshots), ConfigPart := fp(x.config)];
    var s := Sides(CheckinState(hostID, None, None, "", acked, []), map[]);
    var req := Build(fp, s.host, x, false);
    assert req.included == map[];
    assert Receive(s.server, req) == map[];
    assert [Completed][..0] == [];
    assert Rounds(fp, s, x, [], at) == s;
  }
}
