/**
 * The websocket exporter: a hub of live clients, each admitted unauthenticated
 * and flagged authenticated once it presents the shared secret; a sweep drops
 * clients that stay unauthenticated past a grace window, and published payloads
 * go to authenticated clients only. Network reads and writes are given outcomes.
 */
module Websocket {
  import opened Wrappers
  import opened Payloads
  import Base64

  /** How long a read may wait for a message or a pong. */
  const PongDeadline: nat := 10 * Second

  /** The ping period, nine tenths of the pong deadline. */
  const PingInterval: nat := (PongDeadline * 9) / 10

  /** How long a client may stay unauthenticated. */
  const GraceWindow: nat := 10 * Second

  const AuthenticationMessage: string := "authentication_message"

  /** The octet of ':' that joins user name and password. */
  const Colon: Base64.byte := 58

  /** A ping is always due before the read deadline a pong must refresh. */
  lemma PingBeforeDeadline()
    ensures 0 < PingInterval < PongDeadline
  {
  }

  /** A connected client; object identity plays the role of the Go `*client` map key. */
  class Client {
    const addedTS: nat

    constructor (addedTS: nat)
      ensures this.addedTS == addedTS
    {
      this.addedTS := addedTS;
    }
  }

  /** One result of `ReadJSON`: a decoded inbound event or a read error. */
  datatype Inbound = Message(name: string, payload: string) | ReadError(error: string)

  /** What the read loop does after one inbound result. */
  datatype Action = Authenticate | Close

  function Dispatch(secret: string, m: Inbound): (a: Action)
    ensures a == Authenticate <==> m.Message? && m.name == AuthenticationMessage && m.payload == secret
  {
    match m
    case ReadError(_) => Close
    case Message(name, payload) =>
      if name == AuthenticationMessage then
        if payload == secret then Authenticate else Close
      else Close
  }

  /** The shared secret: Base64 of `username ":" password`. */
  function Secret(username: seq<Base64.byte>, password: seq<Base64.byte>): (s: string)
    ensures Base64.Decode(s) == Some(username + [Colon] + password)
    ensures |s| == 4 * ((|username| + |password| + 3) / 3)
  {
    Base64.DecodeEncode(username + [Colon] + password);
    Base64.Encode(username + [Colon] + password)
  }

  /** A message that authenticates carries exactly the encoded credentials. */
  lemma SecretRevealsCredentials(username: seq<Base64.byte>, password: seq<Base64.byte>, payload: string)
    ensures Dispatch(Secret(username, password), Message(AuthenticationMessage, payload)) == Authenticate
            <==> payload == Secret(username, password)
    ensures Dispatch(Secret(username, password), Message(AuthenticationMessage, payload)) == Authenticate
            ==> Base64.Decode(payload) == Some(username + [Colon] + password)
  {
    Base64.DecodeEncode(username + [Colon] + password);
  }

  /** Two credential pairs share a secret only if they join to the same text. */
  lemma SecretDeterminesCredentials(u1: seq<Base64.byte>, p1: seq<Base64.byte>, u2: seq<Base64.byte>, p2: seq<Base64.byte>)
    ensures Secret(u1, p1) == Secret(u2, p2) ==> u1 + [Colon] + p1 == u2 + [Colon] + p2
  {
    Base64.EncodeInjective(u1 + [Colon] + p1, u2 + [Colon] + p2);
  }

  /** A client the sweep removes: unauthenticated and older than the grace window. */
  predicate Expired(c: Client, authenticated: bool, now: nat) {
    !authenticated && now - c.addedTS > GraceWindow
  }

  /** The clients after one sweep at time `now`. */
  function Swept(clients: map<Client, bool>, now: nat): (m: map<Client, bool>)
    ensures m.Keys <= clients.Keys
    ensures forall c :: c in clients ==> (c in m <==> !Expired(c, clients[c], now))
    ensures forall c :: c in m ==> m[c] == clients[c]
    ensures forall c :: c in clients && clients[c] ==> c in m
  {
    map c | c in clients && !Expired(c, clients[c], now) :: clients[c]
  }

  /** The clients whose flag is set. */
  function Authenticated(clients: map<Client, bool>): set<Client> {
    set c | c in clients && clients[c]
  }

  /** The client registry of one websocket exporter (`manager`). */
  class Hub {
    var clients: map<Client, bool>
    var secret: string

    /** The zero value of the exporter before Initialize. */
    constructor ()
      ensures clients == map[] && secret == ""
    {
      clients, secret := map[], "";
    }

    /**
     * `Initialize`: the secret and an empty registry are in place before the
     * endpoint is parsed; a parse error is returned.
     */
    method Initialize(username: seq<Base64.byte>, password: seq<Base64.byte>, endpoint: Outcome)
      returns (err: Outcome)
      modifies this
      ensures secret == Secret(username, password) && clients == map[]
      ensures err == endpoint
    {
      secret := Base64.Encode(username + [Colon] + password);
      clients := map[];
      err := endpoint;
    }

    /**
     * `Publish`: the payload is written to every authenticated client and to
     * no other; a failed write does not stop the rest, and the error of some
     * failed write is returned. `writes` records each WriteJSON call.
     */
    method Publish(p: Payload, failures: map<Client, string>)
      returns (writes: map<Client, Payload>, err: Option<string>)
      ensures writes.Keys == Authenticated(clients)
      ensures forall c :: c in writes ==> writes[c] == p
      ensures err.None? <==> writes.Keys !! failures.Keys
      ensures err.Some? ==> exists c :: c in writes && c in failures && failures[c] == err.value
    {
      writes, err := map[], None;
      var remaining := clients.Keys;
      while remaining != {}
        invariant remaining <= clients.Keys
        invariant writes.Keys == Authenticated(clients) - remaining
        invariant forall c :: c in writes ==> writes[c] == p
        invariant err.None? <==> writes.Keys !! failures.Keys
        invariant err.Some? ==> exists c :: c in writes && c in failures && failures[c] == err.value
        decreases remaining
      {
        var c :| c in remaining;
        remaining := remaining - {c};
        if !clients[c] {
          continue;
        }
        writes := writes[c := p];
        if c in failures {
          err := Some(failures[c]);
        }
      }
    }

    /** `upgrade`: a new connection joins unauthenticated; nothing else changes. */
    method Upgrade(now: nat, upgraded: Outcome) returns (c: Client?)
      modifies this
      ensures upgraded.Err? ==> c == null && clients == old(clients)
      ensures upgraded.Ok? ==> c != null && fresh(c) && c.addedTS == now && clients == old(clients)[c := false]
      ensures secret == old(secret)
    {
      if upgraded.Err? {
        return null;
      }
      c := new Client(now);
      clients := clients[c := false];
    }

    /** `authenticateClient`: sets the flag of a present client; never adds one. */
    method AuthenticateClient(c: Client)
      modifies this
      ensures clients == if c in old(clients) then old(clients)[c := true] else old(clients)
      ensures secret == old(secret)
    {
      if c in clients {
        clients := clients[c := true];
      }
    }

    /** `removeClient`: drops the client if present; removing an absent client does nothing. */
    method RemoveClient(c: Client)
      modifies this
      ensures clients == old(clients) - {c}
      ensures c !in old(clients) ==> clients == old(clients)
      ensures secret == old(secret)
    {
      if c in clients {
        clients := clients - {c};
      }
    }

    /** One pass of `verifyClients` at time `now`. */
    method VerifyClients(now: nat)
      modifies this
      ensures clients == Swept(old(clients), now)
      ensures secret == old(secret)
    {
      var remaining := clients.Keys;
      while remaining != {}
        invariant remaining <= old(clients).Keys
        invariant clients ==
          map c | c in old(clients) && (c in remaining || !Expired(c, old(clients)[c], now)) :: old(clients)[c]
        invariant secret == old(secret)
        decreases remaining
      {
        var c :| c in remaining;
        var authenticated := clients[c];
        remaining := remaining - {c};
        if Expired(c, authenticated, now) {
          RemoveClient(c);
        }
      }
    }

    /**
     * `readMessages`: a read deadline that cannot be set, a read error, another
     * message name or a wrong secret ends the loop, after which the client is
     * removed; a correct authentication message authenticates and keeps reading.
     * Returns whether the loop ended within the given inbound results.
     */
    method ReadMessages(c: Client, deadline: Outcome, inbound: seq<Inbound>) returns (ended: bool)
      modifies this
      ensures ended <==> deadline.Err? || exists i :: 0 <= i < |inbound| && Dispatch(secret, inbound[i]) == Close
      ensures ended ==> clients == old(clients) - {c}
      ensures !ended ==> clients == if c in old(clients) && |inbound| > 0 then old(clients)[c := true] else old(clients)
      ensures secret == old(secret)
    {
      if deadline.Err? {
        RemoveClient(c);
        return true;
      }
      var i := 0;
      while i < |inbound|
        invariant 0 <= i <= |inbound|
        invariant secret == old(secret)
        invariant forall j :: 0 <= j < i ==> Dispatch(secret, inbound[j]) == Authenticate
        invariant clients == if c in old(clients) && i > 0 then old(clients)[c := true] else old(clients)
      {
        if Dispatch(secret, inbound[i]) == Close {
          RemoveClient(c);
          return true;
        }
        AuthenticateClient(c);
        i := i + 1;
      }
      return false;
    }

    /**
     * `writeMessages`: one ping per tick; the first failed ping ends the loop
     * and removes the client.
     */
    method WriteMessages(c: Client, pings: seq<Outcome>) returns (ended: bool)
      modifies this
      ensures ended <==> exists i :: 0 <= i < |pings| && pings[i].Err?
      ensures ended ==> clients == old(clients) - {c}
      ensures !ended ==> clients == old(clients)
      ensures secret == old(secret)
    {
      var i := 0;
      while i < |pings|
        invariant 0 <= i <= |pings|
        invariant forall j :: 0 <= j < i ==> pings[j].Ok?
        invariant clients == old(clients) && secret == old(secret)
      {
        if pings[i].Err? {
          RemoveClient(c);
          return true;
        }
        i := i + 1;
      }
      return false;
    }
  }
}
