/** The token and keepalive sequence of a client: which keepalives are accepted when messages are repeated,
    delayed or reordered. */
module Tokens {

  /** The fields of the client document that decide about a keepalive. */
  datatype Client = Client(token: int, sequence: int, attachmentsVersion: int)

  const FIRST_KEEPALIVE := -1

  const INITIAL_ATTACHMENTS_VERSION := 0

  datatype Keepalive = Keepalive(token: int, sequence: int, attachmentsVersion: int)

  datatype Event =
    | Receive(message: Keepalive)
    | Timeout
    | Adopt(read: int, reported: int)

  /** The query of the update: same token, newer sequence. A first keepalive never updates the document. */
  predicate Accepts(c: Client, m: Keepalive) {
    m.token != FIRST_KEEPALIVE && m.token == c.token && c.sequence < m.sequence
  }

  function Received(c: Client, m: Keepalive): Client {
    if !Accepts(c, m) then c
    else
      c.(sequence := m.sequence,
         attachmentsVersion := if c.attachmentsVersion == INITIAL_ATTACHMENTS_VERSION
             && c.attachmentsVersion < m.attachmentsVersion
                               then m.attachmentsVersion else c.attachmentsVersion)
  }

  /** The client did not report in time: next token, sequences from zero. */
  function TimedOut(c: Client): Client {
    Client(c.token + 1, 0, c.attachmentsVersion + 1)
  }

  /** A client reported a larger token than the one read from the document; the update is guarded by the
      token read, and leaves the sequence as it is. */
  function Adopted(c: Client, read: int, reported: int): Client {
    if c.token == read then c.(token := reported + 1) else c
  }

  /** A token is adopted only from a report above the token read. */
  predicate Possible(e: Event) {
    e.Adopt? ==> e.read < e.reported
  }

  function Step(c: Client, e: Event): Client {
    match e
    case Receive(m) => Received(c, m)
    case Timeout => TimedOut(c)
    case Adopt(read, reported) => Adopted(c, read, reported)
  }

  function Run(c: Client, events: seq<Event>): Client {
    if events == [] then c else Step(Run(c, events[..|events| - 1]), events[|events| - 1])
  }

  predicate Less(token: int, sequence: int, otherToken: int, otherSequence: int) {
    token < otherToken || (token == otherToken && sequence < otherSequence)
  }

  /** The document is past a token and sequence. */
  predicate AtLeast(c: Client, token: int, sequence: int) {
    !Less(c.token, c.sequence, token, sequence)
  }

  /** Whatever has an effect moves the pair of token and sequence strictly forward. */
  lemma StepMovesForward(c: Client, e: Event)
    requires Possible(e)
    ensures Step(c, e) == c || Less(c.token, c.sequence, Step(c, e).token, Step(c, e).sequence)
    ensures Step(c, e).attachmentsVersion >= c.attachmentsVersion
    ensures e.Receive? && Accepts(c, e.message) ==>
              Step(c, e).token == e.message.token && Step(c, e).sequence == e.message.sequence && Step(c, e) != c
  {
  }

  /** Over every run, with messages repeated and out of order, the pair and the version only grow. */
  lemma {:induction false} RunMovesForward(c: Client, events: seq<Event>, n: nat)
    requires n <= |events| && forall i | 0 <= i < |events| :: Possible(events[i])
    ensures var mid, end := Run(c, events[..n]), Run(c, events);
            && AtLeast(end, mid.token, mid.sequence) && end.attachmentsVersion >= mid.attachmentsVersion
    decreases |events|
  {
    if n < |events| {
      var init := events[..|events| - 1];
      RunMovesForward(c, init, n);
      assert init[..n] == events[..n];
      StepMovesForward(Run(c, init), events[|events| - 1]);
    } else {
      assert events[..n] == events;
    }
  }

  /** Once the document is past a keepalive, that keepalive is not accepted any more. */
  lemma PastIsRejected(c: Client, events: seq<Event>, m: Keepalive)
    requires forall i | 0 <= i < |events| :: Possible(events[i])
    requires AtLeast(c, m.token, m.sequence)
    ensures !Accepts(Run(c, events), m)
  {
    RunMovesForward(c, events, 0);
    assert events[..0] == [];
  }

  lemma {:induction false} RunConcat(c: Client, a: seq<Event>, b: seq<Event>)
    ensures Run(c, a + b) == Run(Run(c, a), b)
    decreases |b|
  {
    if b == [] {
      assert a + b == a;
    } else {
      RunConcat(c, a, b[..|b| - 1]);
      assert (a + b)[..|a + b| - 1] == a + b[..|b| - 1];
    }
  }

  /** A keepalive is accepted at most once, however often it is delivered. */
  lemma AcceptedOnce(c: Client, events: seq<Event>, i: nat, j: nat)
    requires forall k | 0 <= k < |events| :: Possible(events[k])
    requires i < j < |events| && events[i].Receive? && events[j] == events[i]
    requires Accepts(Run(c, events[..i]), events[i].message)
    ensures !Accepts(Run(c, events[..j]), events[j].message)
  {
    var m := events[i].message;
    var after := Run(c, events[..i + 1]);
    assert events[..i + 1][..i] == events[..i];
    StepMovesForward(Run(c, events[..i]), events[i]);
    RunConcat(c, events[..i + 1], events[i + 1..j]);
    assert events[..j] == events[..i + 1] + events[i + 1..j];
    PastIsRejected(after, events[i + 1..j], m);
  }

  /** After a timeout no keepalive with the old token or an older one is accepted again, after an adopted token none
      with the reported one or an older one. */
  lemma OldTokenNeverAgain(c: Client, e: Event, later: seq<Event>, m: Keepalive)
    requires Possible(e) && forall k | 0 <= k < |later| :: Possible(later[k])
    requires Step(c, e).token > c.token
    requires m.token <= if e.Adopt? then e.reported else c.token
    ensures !Accepts(Run(Step(c, e), later), m)
  {
    PastIsRejected(Step(c, e), later, m);
  }

  function Deliveries(ms: seq<Keepalive>): (r: seq<Event>)
    ensures |r| == |ms| && forall i | 0 <= i < |r| :: r[i] == Receive(ms[i])
  {
    seq(|ms|, i requires 0 <= i < |ms| => Receive(ms[i]))
  }

  /** Keepalives of one token in the order they were sent. */
  ghost predicate InOrder(ms: seq<Keepalive>, token: int) {
    && (forall i | 0 <= i < |ms| :: ms[i].token == token)
    && (forall i, j | 0 <= i < j < |ms| :: ms[i].sequence < ms[j].sequence)
  }

  /** Keepalives of the current token that arrive in order, above the sequence stored, are all accepted. */
  lemma {:induction false} InOrderIsAccepted(c: Client, ms: seq<Keepalive>)
    requires c.token != -1 && InOrder(ms, c.token) && forall i | 0 <= i < |ms| :: c.sequence < ms[i].sequence
    ensures var end := Run(c, Deliveries(ms));
            end.token == c.token && end.sequence == if ms == [] then c.sequence else ms[|ms| - 1].sequence
    ensures forall i | 0 <= i < |ms| :: Accepts(Run(c, Deliveries(ms)[..i]), ms[i])
    decreases |ms|
  {
    if ms != [] {
      var n := |ms| - 1;
      assert Deliveries(ms)[..n] == Deliveries(ms[..n]);
      InOrderIsAccepted(c, ms[..n]);
      forall i | 0 <= i < |ms| ensures Accepts(Run(c, Deliveries(ms)[..i]), ms[i]) {
        if i < n {
          assert Deliveries(ms)[..i] == Deliveries(ms[..n])[..i] && ms[..n][i] == ms[i];
        }
      }
    }
  }

  /** After a timeout the client starts over: with the next token, all keepalives from sequence 1 on are accepted. */
  lemma StartsOver(c: Client, ms: seq<Keepalive>)
    requires c.token + 1 != -1 && InOrder(ms, c.token + 1) && forall i | 0 <= i < |ms| :: 1 <= ms[i].sequence
    ensures forall i | 0 <= i < |ms| :: Accepts(Run(Step(c, Timeout), Deliveries(ms)[..i]), ms[i])
    ensures Run(Step(c, Timeout), Deliveries(ms)).sequence == if ms == [] then 0 else ms[|ms| - 1].sequence
  {
    InOrderIsAccepted(Step(c, Timeout), ms);
  }

  /** After an adopted token the client goes on with the next one, from the sequence stored. */
  lemma AdoptedGoesOn(c: Client, read: int, reported: int, ms: seq<Keepalive>)
    requires c.token == read && reported + 1 != -1 && InOrder(ms, reported + 1)
    requires forall i | 0 <= i < |ms| :: c.sequence < ms[i].sequence
    ensures forall i | 0 <= i < |ms| :: Accepts(Run(Step(c, Adopt(read, reported)), Deliveries(ms)[..i]), ms[i])
  {
    InOrderIsAccepted(Step(c, Adopt(read, reported)), ms);
  }

  /** An accepted keepalive gives a document that still has the first attachments version its own, if that is above
      it, and leaves every other version alone. A first keepalive changes nothing. */
  lemma VersionAdopted(c: Client, m: Keepalive)
    ensures Step(c, Receive(m)).attachmentsVersion
         == if Accepts(c, m) && c.attachmentsVersion == 0 && m.attachmentsVersion > 0 then m.attachmentsVersion
            else c.attachmentsVersion
    ensures m.token == -1 ==> Step(c, Receive(m)) == c
  {
  }

  /** The document as the handlers change it. */
  class StoredClient {
    var doc: Client

    constructor (doc: Client)
      ensures this.doc == doc
    {
      this.doc := doc;
    }

    method HandleClientKeepalive(m: Keepalive) returns (accepted: bool)
      modifies this
      ensures accepted == Accepts(old(doc), m) && doc == Step(old(doc), Receive(m))
    {
      accepted := Accepts(doc, m);
      if accepted {
        if doc.attachmentsVersion == INITIAL_ATTACHMENTS_VERSION && doc.attachmentsVersion < m.attachmentsVersion {
          doc := doc.(attachmentsVersion := m.attachmentsVersion);
        }
        doc := doc.(sequence := m.sequence);
      }
    }

    method SetClientOfflineAndIncToken()
      modifies this
      ensures doc == Step(old(doc), Timeout)
    {
      doc := doc.(token := doc.token + 1, attachmentsVersion := doc.attachmentsVersion + 1);
      doc := doc.(sequence := 0);
    }

    /** `read` is the token `resendClientTokenIfNeeded` found before. */
    method IncreaseClientTokenFromReportedToken(read: int, reported: int)
      requires read < reported
      modifies this
      ensures doc == Step(old(doc), Adopt(read, reported))
    {
      if doc.token == read {
        doc := doc.(token := reported + 1);
      }
    }
  }
}
