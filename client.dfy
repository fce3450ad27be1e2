/** The client: the connect-time handshake `init` (xmpp.go:127-231) and `Recv`
    (xmpp.go:233-249).  What the client writes to the connection is kept as a
    transcript, one entry per write; what the server sends is a fixed `Stream`. */
module Xmpp {
  import opened Errors
  import opened Xml
  import opened Dispatch
  import XmlEscape
  import Base64
  import Addressing

  const Declaration: string := "<?xml version='1.0'?>\n"

  /** The stream header, with the XML declaration (xmpp.go:147-150): the header
      sent again after authentication is this one without its declaration. */
  function Header(domain: string): (h: string)
    ensures h == Declaration + RestartHeader(domain)
  {
    Declaration
      + "<stream:stream to='" + XmlEscape.Escaped(domain) + "' xmlns='" + NsClient + "'\n"
      + " xmlns:stream='" + NsStream + "' version='1.0'>\n"
  }

  const StreamOpen: string := "<stream:stream to='"

  /** The header sent again after authentication, without the declaration
      (xmpp.go:200-202).  Its `to` attribute holds the escaped domain, which
      holds no quote that could end the attribute early. */
  function RestartHeader(domain: string): (h: string)
    ensures StreamOpen + XmlEscape.Escaped(domain) + "'" <= h
    ensures XmlEscape.NoRawMarkup(XmlEscape.Escaped(domain))
  {
    XmlEscape.EscapedHasNoRawMarkup(domain);
    StreamOpen + XmlEscape.Escaped(domain) + "' xmlns='" + NsClient + "'\n"
      + " xmlns:stream='" + NsStream + "' version='1.0'>\n"
  }

  /** The `<auth>` element carrying the PLAIN payload (xmpp.go:183-184). */
  function AuthRequest(payload: string): string
  {
    "<auth xmlns='" + NsSasl + "' mechanism='PLAIN'>" + payload + "</auth>\n"
  }

  /** The bind request (xmpp.go:218). */
  const BindRequest: string := "<iq type='set' id='x'><bind xmlns='" + NsBind + "'/></iq>\n"

  /** The initial presence (xmpp.go:229); it ends with no newline. */
  const InitialPresence: string :=
    "<presence xml:lang='en'><show>xa</show><status>I for one welcome our new codebot overlords.</status></presence>"

  const StreamRoot: QName := QName(NsStream, "stream")
  /** The `XMLName` tags of `streamFeatures` (xmpp.go:263) and `clientIQ`
      (xmpp.go:364), the same as `TypeTag(StreamFeatures)` and `TypeTag(ClientIq)`. */
  const FeaturesName: QName := QName(NsStream, "features")
  const IqName: QName := QName(NsClient, "iq")

  /** The PLAIN message of section 2 of RFC 4616 as built at xmpp.go:180: an empty
      authorization identity, then the user and the password, NUL-separated. */
  function PlainMessage(user: string, passwd: string): (m: string)
    ensures |m| == |user| + |passwd| + 2
    ensures Base64.IsOctets(user) && Base64.IsOctets(passwd) ==> Base64.IsOctets(m)
  {
    [0 as char] + user + [0 as char] + passwd
  }

  /** The PLAIN payload: the base 64 encoding of the PLAIN message. */
  function PlainPayload(user: string, passwd: string): string
    requires Base64.IsOctets(user) && Base64.IsOctets(passwd)
  {
    Base64.Encode(PlainMessage(user, passwd))
  }

  /** `%v` of a `[]string`: the items between brackets, separated by spaces. */
  function FormatList(items: seq<string>): (r: string)
    ensures |r| >= 2 && r[0] == '[' && r[|r| - 1] == ']'
    ensures |items| > 0 ==> |r| == TotalLength(items) + |items| + 1
    ensures |items| > 0 ==> r[1..1 + |items[0]|] == items[0]
  {
    "[" + Joined(items) + "]"
  }

  function TotalLength(items: seq<string>): nat
  {
    if items == [] then 0 else |items[0]| + TotalLength(items[1..])
  }

  /** The items separated by single spaces. */
  function Joined(items: seq<string>): (r: string)
    ensures |items| > 0 ==> |r| == TotalLength(items) + |items| - 1
    ensures |items| > 0 ==> items[0] <= r
  {
    if |items| == 0 then ""
    else if |items| == 1 then items[0]
    else items[0] + " " + Joined(items[1..])
  }

  /** The writes of a complete handshake, in order (xmpp.go:147-150, 183-184,
      200-202, 218, 229): the stream header, then what remains from the state it
      leads to, that is `<auth>`, the restart header, the bind request and the
      initial presence. */
  function Script(user: string, domain: string, passwd: string): (w: seq<string>)
    requires Base64.IsOctets(user) && Base64.IsOctets(passwd)
    ensures |w| == 5
    ensures w[0] == Declaration + w[2]
  {
    assert Opened(user, domain, passwd).Remaining()[1] == AuthSent(domain).Remaining()[0];
    [Header(domain)] + Opened(user, domain, passwd).Remaining()
  }

  /** How a handshake (or what is left of one) ends: what it wrote, the JID it
      bound, where the decoder stands, and the error it returned. */
  datatype Outcome = Outcome(writes: seq<string>, jid: Option<string>, next: nat, err: Option<Error>)

  function Stop(next: nat, e: Error): Outcome
  {
    Outcome([], None, next, Some(e))
  }

  /** Writes `w` before the rest of the handshake runs. */
  function Then(w: string, o: Outcome): Outcome
  {
    o.(writes := [w] + o.writes)
  }

  /** The outcome writes a prefix of `script`, writes all of it exactly when it
      returns no error, and binds a JID exactly then. */
  predicate Follows(o: Outcome, script: seq<string>)
  {
    && o.writes <= script
    && (o.err.None? <==> o.writes == script)
    && (o.jid.Some? <==> o.err.None?)
  }

  lemma ThenFollows(w: string, o: Outcome, script: seq<string>)
    requires Follows(o, script)
    ensures Follows(Then(w, o), [w] + script)
  {
  }

  /** The mechanisms the server advertises in its first `<features>`, when the
      stream opens with a root and a decodable features element. */
  function Advertised(s: Stream): (r: Option<seq<string>>)
    ensures r.Some? ==>
      && ReadStart(s, 0).result.Ok? && ReadStart(s, 0).result.value.name == StreamRoot
      && var k := FindStart(s.tokens, ReadStart(s, 0).next);
      && k < |s.tokens| && s.tokens[k].element.name == FeaturesName
      && s.tokens[k].element.body.Decoded? && s.tokens[k].element.body.fields.mechanisms == r.value
  {
    var root := ReadStart(s, 0);
    if root.result.Err? || root.result.value.name != StreamRoot then None
    else
      var f := ReadElement(s, root.next, FeaturesName);
      if f.result.Err? then None else Some(f.result.value.mechanisms)
  }

  /** The states `init` passes through after writing its first header, each named
      for the write that led to it and holding what the rest of `init` needs. */
  datatype Phase =
    | Opened(user: string, domain: string, passwd: string)
    | AuthSent(domain: string)
    | Restarted
    | BindSent
  {
    predicate Valid()
    {
      Opened? ==> Base64.IsOctets(user) && Base64.IsOctets(passwd)
    }

    /** How many states are still to come. */
    function Rank(): nat
    {
      match this
      case Opened(_, _, _) => 3
      case AuthSent(_) => 2
      case Restarted => 1
      case BindSent => 0
    }

    /** The writes a complete handshake still makes from this state: the write
        that leads to the next state, then what remains from there. */
    function Remaining(): (r: seq<string>)
      requires Valid()
      ensures |r| == Rank() + 1
      decreases Rank()
    {
      match this
      case Opened(user, domain, passwd) => [AuthRequest(PlainPayload(user, passwd))] + AuthSent(domain).Remaining()
      case AuthSent(domain) => [RestartHeader(domain)] + Restarted.Remaining()
      case Restarted => [BindRequest] + BindSent.Remaining()
      case BindSent => [InitialPresence]
    }
  }

  /** The rest of `init` from state `p`, with the decoder at `pos`. */
  function Run(p: Phase, s: Stream, pos: nat): Outcome
    requires p.Valid() && pos <= |s.tokens|
  {
    match p
    case Opened(user, domain, passwd) => RunOpened(user, domain, passwd, s, pos)
    case AuthSent(domain) => RunAuthSent(domain, s, pos)
    case Restarted => RunRestarted(s, pos)
    case BindSent => RunBindSent(s, pos)
  }

  /** Opened: the server's stream root and features are read, and `<auth>` goes
      out only if PLAIN is advertised (xmpp.go:152-184). */
  function RunOpened(user: string, domain: string, passwd: string, s: Stream, pos: nat): Outcome
    requires Base64.IsOctets(user) && Base64.IsOctets(passwd) && pos <= |s.tokens|
  {
    var root := ReadStart(s, pos);
    match root.result
    case Err(e) => Stop(root.next, e)
    case Ok(se) =>
      if se.name.space != NsStream || se.name.local != "stream" then
        Stop(root.next, Failed("xmpp: expected <stream> but got <" + se.name.local + "> in " + se.name.space))
      else
        var features := ReadElement(s, root.next, FeaturesName);
        match features.result
        case Err(e) => Stop(features.next, Failed("unmarshal <features>: " + e.Text()))
        case Ok(f) =>
          if "PLAIN" !in f.mechanisms then
            Stop(features.next, Failed("PLAIN authentication is not an option: " + FormatList(f.mechanisms)))
          else
            Then(AuthRequest(PlainPayload(user, passwd)), RunAuthSent(domain, s, features.next))
  }

  /** AuthSent: the reply must be `<success>` (xmpp.go:187-202); the error of
      `next` is not looked at, so an ordinary one leaves an empty name behind,
      while a fatal one has already ended the process. */
  function RunAuthSent(domain: string, s: Stream, pos: nat): Outcome
    requires pos <= |s.tokens|
  {
    var reply := ReadNext(s, pos);
    match reply.result
    case Err(Fatal(reason)) => Stop(reply.next, Fatal(reason))
    case Err(Failed(_)) => Stop(reply.next, Failed("expected <success> or <failure>, got <> in "))
    case Ok(d) =>
      if d.value.kind == SaslSuccess then Then(RestartHeader(domain), RunRestarted(s, reply.next))
      else if d.value.kind == SaslFailure then Stop(reply.next, Failed("auth failure: " + d.value.fields.condition.local))
      else Stop(reply.next, Failed("expected <success> or <failure>, got <" + d.name.local + "> in " + d.name.space))
  }

  /** Restarted: the second stream root is required, but a failure to decode the
      second `<features>` is ignored (xmpp.go:205-218). */
  function RunRestarted(s: Stream, pos: nat): Outcome
    requires pos <= |s.tokens|
  {
    var root := ReadStart(s, pos);
    match root.result
    case Err(e) => Stop(root.next, e)
    case Ok(se) =>
      if se.name.space != NsStream || se.name.local != "stream" then
        Stop(root.next, Failed("expected <stream>, got <" + se.name.local + "> in " + se.name.space))
      else
        var features := ReadElement(s, root.next, FeaturesName);
        Then(BindRequest, RunBindSent(s, features.next))
  }

  /** BindSent: the `<iq>` answer is read and its JID kept, then the initial
      presence is sent (xmpp.go:219-230). */
  function RunBindSent(s: Stream, pos: nat): Outcome
    requires pos <= |s.tokens|
  {
    var iq := ReadElement(s, pos, IqName);
    match iq.result
    case Err(e) => Stop(iq.next, Failed("unmarshal <iq>: " + e.Text()))
    case Ok(f) => Outcome([InitialPresence], Some(f.jid), iq.next, None)
  }

  /** From every state, the rest of `init` writes a prefix of what remains of the
      script, writes all of it exactly when it returns no error, and binds a JID
      exactly then. */
  lemma RunFollows(p: Phase, s: Stream, pos: nat)
    requires p.Valid() && pos <= |s.tokens|
    ensures Follows(Run(p, s, pos), p.Remaining())
  {
    match p
    case Opened(user, domain, passwd) => OpenedFollows(user, domain, passwd, s, pos);
    case AuthSent(domain) => AuthSentFollows(domain, s, pos);
    case Restarted => RestartedFollows(s, pos);
    case BindSent =>
  }

  lemma OpenedFollows(user: string, domain: string, passwd: string, s: Stream, pos: nat)
    requires Base64.IsOctets(user) && Base64.IsOctets(passwd) && pos <= |s.tokens|
    ensures Follows(RunOpened(user, domain, passwd, s, pos), Opened(user, domain, passwd).Remaining())
  {
    var o := RunOpened(user, domain, passwd, s, pos);
    var root := ReadStart(s, pos);
    if root.result.Ok? && root.result.value.name == StreamRoot {
      var features := ReadElement(s, root.next, FeaturesName);
      if features.result.Ok? && "PLAIN" in features.result.value.mechanisms {
        var w := AuthRequest(PlainPayload(user, passwd));
        AuthSentFollows(domain, s, features.next);
        ThenFollows(w, RunAuthSent(domain, s, features.next), AuthSent(domain).Remaining());
        assert o == Then(w, RunAuthSent(domain, s, features.next));
      } else {
        assert o == Stop(o.next, o.err.value);
      }
    } else {
      assert o == Stop(o.next, o.err.value);
    }
  }

  lemma AuthSentFollows(domain: string, s: Stream, pos: nat)
    requires pos <= |s.tokens|
    ensures Follows(RunAuthSent(domain, s, pos), AuthSent(domain).Remaining())
  {
    var reply := ReadNext(s, pos);
    if reply.result.Ok? && reply.result.value.value.kind == SaslSuccess {
      RestartedFollows(s, reply.next);
      ThenFollows(RestartHeader(domain), RunRestarted(s, reply.next), Restarted.Remaining());
    } else {
      var o := RunAuthSent(domain, s, pos);
      assert o == Stop(o.next, o.err.value);
    }
  }

  lemma RestartedFollows(s: Stream, pos: nat)
    requires pos <= |s.tokens|
    ensures Follows(RunRestarted(s, pos), Restarted.Remaining())
  {
    var root := ReadStart(s, pos);
    if root.result.Ok? && root.result.value.name == StreamRoot {
      var features := ReadElement(s, root.next, FeaturesName);
      ThenFollows(BindRequest, RunBindSent(s, features.next), BindSent.Remaining());
    } else {
      var o := RunRestarted(s, pos);
      assert o == Stop(o.next, o.err.value);
    }
  }

  /** Opened: `<auth>` goes out exactly when the first features advertise PLAIN;
      when they do not, the error lists the advertised mechanisms. */
  lemma OpenedGate(user: string, domain: string, passwd: string, s: Stream)
    requires Base64.IsOctets(user) && Base64.IsOctets(passwd)
    ensures var o := Run(Opened(user, domain, passwd), s, 0);
      && (o.writes != [] <==> Advertised(s).Some? && "PLAIN" in Advertised(s).value)
      && (Advertised(s).Some? && "PLAIN" !in Advertised(s).value ==>
            o.err == Some(Failed("PLAIN authentication is not an option: " + FormatList(Advertised(s).value))))
  {
  }

  /** AuthSent: the restart header goes out exactly when the reply is `<success>`;
      a `<failure>` ends `init` with the failure's condition. */
  lemma AuthSentGate(domain: string, s: Stream, pos: nat)
    requires pos <= |s.tokens|
    ensures var o := Run(AuthSent(domain), s, pos);
      var reply := ReadNext(s, pos);
      && (o.writes != [] <==> reply.result.Ok? && reply.result.value.value.kind == SaslSuccess)
      && (reply.result.Ok? && reply.result.value.value.kind == SaslFailure ==>
            o.err == Some(Failed("auth failure: " + reply.result.value.value.fields.condition.local)))
      && (reply.result.Err? && reply.result.error.Failed? ==>
            o.err == Some(Failed("expected <success> or <failure>, got <> in ")))
  {
  }

  /** Restarted: the bind request goes out exactly when the second stream root
      arrives, whatever reading the second features gives. */
  lemma RestartedGate(s: Stream, pos: nat)
    requires pos <= |s.tokens|
    ensures var o := Run(Restarted, s, pos);
      o.writes != [] <==> ReadStart(s, pos).result.Ok? && ReadStart(s, pos).result.value.name == StreamRoot
  {
  }

  /** BindSent: a JID is bound exactly when the `<iq>` answer decodes, and it is
      the JID that answer carries. */
  lemma BindSentBinds(s: Stream, pos: nat)
    requires pos <= |s.tokens|
    ensures var o := Run(BindSent, s, pos);
      && (o.jid.Some? <==> ReadElement(s, pos, IqName).result.Ok?)
      && (o.jid.Some? ==> o.jid.value == ReadElement(s, pos, IqName).result.value.jid)
  {
  }

  lemma AppendAssociates<T>(a: seq<T>, b: seq<T>, c: seq<T>)
    ensures (a + b) + c == a + (b + c)
  {
  }

  /** The user part of a byte-string JID is a byte string. */
  lemma UserIsOctets(jid: string)
    requires Base64.IsOctets(jid) && Addressing.SplitJid(jid).Ok?
    ensures Base64.IsOctets(Addressing.SplitJid(jid).value.0)
  {
    var user := Addressing.SplitJid(jid).value.0;
    forall i | 0 <= i < |user| ensures user[i] as int < 256 {
      assert user[i] == jid[i];
    }
  }

  /** The whole handshake `init(user, passwd)` against a server that sends `s`. */
  function Handshake(jid: string, passwd: string, s: Stream): Outcome
    requires Base64.IsOctets(jid) && Base64.IsOctets(passwd)
  {
    match Addressing.SplitJid(jid)
    case Err(e) => Stop(0, e)
    case Ok((user, domain)) =>
      UserIsOctets(jid);
      Then(Header(domain), Run(Opened(user, domain, passwd), s, 0))
  }

  /** With a well-formed JID, the handshake writes the header, then goes on as `Opened`. */
  lemma HandshakeOpens(jid: string, passwd: string, s: Stream)
    requires Base64.IsOctets(jid) && Base64.IsOctets(passwd) && Addressing.SplitJid(jid).Ok?
    ensures var (user, domain) := Addressing.SplitJid(jid).value;
      Base64.IsOctets(user) &&
      Handshake(jid, passwd, s) == Then(Header(domain), Run(Opened(user, domain, passwd), s, 0))
  {
    UserIsOctets(jid);
  }

  /** The loop at xmpp.go:168-174: is PLAIN among the mechanisms? */
  method HasPlain(mechanisms: seq<string>) returns (havePlain: bool)
    ensures havePlain <==> "PLAIN" in mechanisms
  {
    havePlain := false;
    var i := 0;
    while i < |mechanisms|
      invariant 0 <= i <= |mechanisms|
      invariant "PLAIN" !in mechanisms[..i]
    {
      if mechanisms[i] == "PLAIN" {
        havePlain := true;
        break;
      }
      i := i + 1;
    }
    assert i == |mechanisms| ==> mechanisms[..i] == mechanisms;
  }

  /** What `Recv` does from `pos`: the first Message or Presence, passing over
      every other kind; the first error of `next` ends it. */
  function Receive(s: Stream, pos: nat): (r: Step<Value>)
    requires pos <= |s.tokens|
    ensures pos <= r.next <= |s.tokens|
    ensures r.result.Ok? ==> r.result.value.kind == Message || r.result.value.kind == Presence
    decreases |s.tokens| - pos
  {
    var d := ReadNext(s, pos);
    match d.result
    case Err(e) => Step(Err(e), d.next)
    case Ok(v) =>
      if v.value.kind == Message || v.value.kind == Presence then Step(Ok(v.value), d.next)
      else Receive(s, d.next)
  }

  class Client {
    /** What the server sends over the connection. */
    const conn: Stream
    /** `c.dec`, made by `init`. */
    var dec: Decoder?
    /** Everything written to the connection, one entry per write. */
    var written: seq<string>
    /** `c.jid`. */
    var jid: string

    ghost predicate Valid()
      reads this, dec
    {
      dec != null && dec.Valid() && dec.stream == conn
    }

    /** `new(Client)` with its connection set (xmpp.go:114-115). */
    constructor (conn: Stream)
      ensures this.conn == conn && dec == null && written == [] && jid == ""
    {
      this.conn := conn;
      dec := null;
      written := [];
      jid := "";
    }

    /** `init`: the handshake.  The body of the source function is split below at
        each write, one method per state, each proved against its state's function. */
    method Init(user: string, passwd: string) returns (err: Option<Error>)
      requires Base64.IsOctets(user) && Base64.IsOctets(passwd)
      modifies this
      ensures Valid() && fresh(dec)
      ensures var h := Handshake(user, passwd, conn);
        && written == old(written) + h.writes
        && dec.pos == h.next
        && err == h.err
        && jid == (if h.jid.Some? then h.jid.value else old(jid))
    {
      dec := new Decoder(conn);
      var a := Addressing.SplitJid(user);
      if a.Err? {
        return Some(a.error);
      }
      var name, domain := a.value.0, a.value.1;
      HandshakeOpens(user, passwd, conn);
      ghost var before := written;
      written := written + [Header(domain)];
      err := HandleOpened(name, domain, passwd);
      AppendAssociates(before, [Header(domain)], Run(Opened(name, domain, passwd), conn, 0).writes);
    }

    /** xmpp.go:152-184. */
    method HandleOpened(user: string, domain: string, passwd: string) returns (err: Option<Error>)
      requires Valid() && dec.pos == 0
      requires Base64.IsOctets(user) && Base64.IsOctets(passwd)
      modifies this, dec
      ensures Valid() && dec == old(dec)
      ensures var o := Run(Opened(user, domain, passwd), conn, 0);
        && written == old(written) + o.writes
        && dec.pos == o.next
        && err == o.err
        && jid == (if o.jid.Some? then o.jid.value else old(jid))
    {
      var se := NextStart(dec);
      if se.Err? {
        return Some(se.error);
      }
      if se.value.name.space != NsStream || se.value.name.local != "stream" {
        return Some(Failed("xmpp: expected <stream> but got <" + se.value.name.local + "> in " + se.value.name.space));
      }
      var f := dec.DecodeElement(FeaturesName);
      if f.Err? {
        return Some(Failed("unmarshal <features>: " + f.error.Text()));
      }
      var havePlain := HasPlain(f.value.mechanisms);
      if !havePlain {
        return Some(Failed("PLAIN authentication is not an option: " + FormatList(f.value.mechanisms)));
      }
      var raw := PlainMessage(user, passwd);
      var enc := Base64.Encode(raw);
      ghost var after := dec.pos;
      ghost var before := written;
      written := written + [AuthRequest(enc)];
      err := HandleAuthSent(domain);
      AppendAssociates(before, [AuthRequest(enc)], Run(AuthSent(domain), conn, after).writes);
    }

    /** xmpp.go:186-202. */
    method HandleAuthSent(domain: string) returns (err: Option<Error>)
      requires Valid()
      modifies this, dec
      ensures Valid() && dec == old(dec)
      ensures var o := Run(AuthSent(domain), conn, old(dec.pos));
        && written == old(written) + o.writes
        && dec.pos == o.next
        && err == o.err
        && jid == (if o.jid.Some? then o.jid.value else old(jid))
    {
      var reply := Next(dec);
      match reply
      case Err(Fatal(reason)) =>
        return Some(Fatal(reason));
      case Err(Failed(_)) =>
        return Some(Failed("expected <success> or <failure>, got <> in "));
      case Ok(d) =>
        if d.value.kind == SaslFailure {
          return Some(Failed("auth failure: " + d.value.fields.condition.local));
        } else if d.value.kind != SaslSuccess {
          return Some(Failed("expected <success> or <failure>, got <" + d.name.local + "> in " + d.name.space));
        }
      ghost var after := dec.pos;
      ghost var before := written;
      written := written + [RestartHeader(domain)];
      err := HandleRestarted();
      AppendAssociates(before, [RestartHeader(domain)], Run(Restarted, conn, after).writes);
    }

    /** xmpp.go:204-218. */
    method HandleRestarted() returns (err: Option<Error>)
      requires Valid()
      modifies this, dec
      ensures Valid() && dec == old(dec)
      ensures var o := Run(Restarted, conn, old(dec.pos));
        && written == old(written) + o.writes
        && dec.pos == o.next
        && err == o.err
        && jid == (if o.jid.Some? then o.jid.value else old(jid))
    {
      var se := NextStart(dec);
      if se.Err? {
        return Some(se.error);
      }
      if se.value.name.space != NsStream || se.value.name.local != "stream" {
        return Some(Failed("expected <stream>, got <" + se.value.name.local + "> in " + se.value.name.space));
      }
      var _ := dec.DecodeElement(FeaturesName);
      ghost var after := dec.pos;
      ghost var before := written;
      written := written + [BindRequest];
      err := HandleBindSent();
      AppendAssociates(before, [BindRequest], Run(BindSent, conn, after).writes);
    }

    /** xmpp.go:219-230. */
    method HandleBindSent() returns (err: Option<Error>)
      requires Valid()
      modifies this, dec
      ensures Valid() && dec == old(dec)
      ensures var o := Run(BindSent, conn, old(dec.pos));
        && written == old(written) + o.writes
        && dec.pos == o.next
        && err == o.err
        && jid == (if o.jid.Some? then o.jid.value else old(jid))
    {
      var iq := dec.DecodeElement(IqName);
      if iq.Err? {
        return Some(Failed("unmarshal <iq>: " + iq.error.Text()));
      }
      jid := iq.value.jid;
      written := written + [InitialPresence];
      return None;
    }

    /** `Recv`: the next Message or Presence. */
    method Recv() returns (r: Result<Value>)
      requires Valid()
      modifies dec
      ensures Valid()
      ensures Step(r, dec.pos) == Receive(conn, old(dec.pos))
    {
      while true
        invariant Valid()
        invariant Receive(conn, old(dec.pos)) == Receive(conn, dec.pos)
        decreases |conn.tokens| - dec.pos
      {
        var d := Next(dec);
        if d.Err? {
          return Err(d.error);
        }
        if d.value.value.kind == Message || d.value.value.kind == Presence {
          return Ok(d.value.value);
        }
        // Any other kind is passed over (`fmt.Println(val)` in the source).
      }
    }
  }
}
