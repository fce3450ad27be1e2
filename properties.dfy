/** Properties of the handshake and of `Recv` that relate several operations. */
module XmppProperties {
  import opened Errors
  import opened Xml
  import opened Dispatch
  import opened Xmpp
  import XmlEscape
  import Base64
  import Addressing

  /** A JID without `@` fails before anything is written (xmpp.go:139-142). */
  lemma BadJidWritesNothing(jid: string, passwd: string, s: Stream)
    requires Base64.IsOctets(jid) && Base64.IsOctets(passwd)
    requires '@' !in jid
    ensures var h := Handshake(jid, passwd, s);
      h.writes == [] && h.jid.None? && h.err == Some(Failed("xmpp: invalid username (want user@domain): " + jid))
  {
  }

  /** With a well-formed JID, the handshake writes a prefix of the fixed script
      header, auth, restart header, bind, presence; it writes the whole script
      exactly when it succeeds, and binds a JID exactly then. */
  lemma {:induction false} HandshakeFollowsScript(jid: string, passwd: string, s: Stream)
    requires Base64.IsOctets(jid) && Base64.IsOctets(passwd)
    requires Addressing.SplitJid(jid).Ok?
    ensures var (user, domain) := Addressing.SplitJid(jid).value;
      Base64.IsOctets(user) &&
      var h := Handshake(jid, passwd, s);
      Follows(h, Script(user, domain, passwd)) && |h.writes| >= 1
  {
    var (user, domain) := Addressing.SplitJid(jid).value;
    HandshakeOpens(jid, passwd, s);
    var start := Opened(user, domain, passwd);
    RunFollows(start, s, 0);
    ThenFollows(Header(domain), Run(start, s, 0), start.Remaining());
  }

  /** `<auth>` is written only when the server's first features advertise PLAIN;
      otherwise the handshake stops after the header with the mechanism list in
      its error (xmpp.go:168-177). */
  lemma PlainGate(jid: string, passwd: string, s: Stream)
    requires Base64.IsOctets(jid) && Base64.IsOctets(passwd)
    requires Addressing.SplitJid(jid).Ok?
    ensures var domain := Addressing.SplitJid(jid).value.1;
      var h := Handshake(jid, passwd, s);
      && (|h.writes| >= 2 <==> Advertised(s).Some? && "PLAIN" in Advertised(s).value)
      && (Advertised(s).Some? && "PLAIN" !in Advertised(s).value ==>
            h.writes == [Header(domain)]
            && h.err == Some(Failed("PLAIN authentication is not an option: " + FormatList(Advertised(s).value))))
  {
    var (user, domain) := Addressing.SplitJid(jid).value;
    HandshakeOpens(jid, passwd, s);
    OpenedGate(user, domain, passwd, s);
  }

  /** The PLAIN payload is the base 64 text of NUL, user, NUL, password: it fills
      `EncodedLen` of that message's length and decodes back to it. */
  lemma PlainPayloadDecodes(user: string, passwd: string)
    requires Base64.IsOctets(user) && Base64.IsOctets(passwd)
    ensures |PlainPayload(user, passwd)| == Base64.EncodedLen(|user| + |passwd| + 2)
    ensures Base64.Decode(PlainPayload(user, passwd)) == Some([0 as char] + user + [0 as char] + passwd)
  {
    Base64.EncodeLength(PlainMessage(user, passwd));
    Base64.DecodeEncode(PlainMessage(user, passwd));
  }

  /** The payload goes into `<auth>` without escaping (xmpp.go:183-184), and needs
      none: base 64 text holds none of the five special bytes, so escaping it
      would leave it unchanged. */
  lemma PayloadNeedsNoEscaping(user: string, passwd: string)
    requires Base64.IsOctets(user) && Base64.IsOctets(passwd)
    ensures XmlEscape.Escaped(PlainPayload(user, passwd)) == PlainPayload(user, passwd)
  {
    var p := PlainPayload(user, passwd);
    Base64.EncodeAlphabet(PlainMessage(user, passwd));
    forall i | 0 <= i < |p|
      ensures !XmlEscape.IsSpecial(p[i])
    {
      assert Base64.IsAlphabet(p[i]) || p[i] == '=';
    }
    XmlEscape.EscapedIdentity(p);
  }

  /** The domain in both headers is escaped: no raw markup byte of the domain
      reaches the attribute, and unescaping gives the domain back. */
  lemma HeaderDomainEscaped(domain: string)
    ensures var e := XmlEscape.Escaped(domain);
      XmlEscape.NoRawMarkup(e) && XmlEscape.Unescaped(e) == domain
      && RestartHeader(domain) == "<stream:stream to='" + e + "' xmlns='" + NsClient + "'\n"
         + " xmlns:stream='" + NsStream + "' version='1.0'>\n"
  {
    XmlEscape.EscapedHasNoRawMarkup(domain);
    XmlEscape.UnescapedEscaped(domain);
  }

  /** A stream in which every step succeeds, with a bind result that carries no JID. */
  function EmptyBindStream(): Stream
  {
    var none := Fields([], QName("", ""), "");
    var root := Start(StartElement(StreamRoot, Decoded(none), 0));
    Stream([
      root,
      Start(StartElement(FeaturesName, Decoded(Fields(["PLAIN"], QName("", ""), "")), 0)),
      Start(StartElement(TableName(SaslSuccess), Decoded(none), 0)),
      root,
      Start(StartElement(FeaturesName, Decoded(none), 0)),
      Start(StartElement(IqName, Decoded(none), 0))
    ], "EOF")
  }

  /** The bind result of `EmptyBindStream` decodes, with no JID in it. */
  lemma EmptyBindResult()
    ensures RunBindSent(EmptyBindStream(), 5).err == None
    ensures RunBindSent(EmptyBindStream(), 5).jid == Some("")
  {
    assert ReadElement(EmptyBindStream(), 5, IqName).result == Ok(Fields([], QName("", ""), ""));
  }

  /** The restarted stream of `EmptyBindStream` reaches the bind result. */
  lemma EmptyBindRestart()
    ensures RunRestarted(EmptyBindStream(), 3).err == None
    ensures RunRestarted(EmptyBindStream(), 3).jid == Some("")
  {
    var s := EmptyBindStream();
    assert ReadStart(s, 3).result.value.name == StreamRoot;
    assert ReadElement(s, 4, FeaturesName).next == 5;
    EmptyBindResult();
  }

  /** `EmptyBindStream` answers `<auth>` with `<success>`. */
  lemma EmptyBindAuth()
    ensures RunAuthSent("b", EmptyBindStream(), 2).err == None
    ensures RunAuthSent("b", EmptyBindStream(), 2).jid == Some("")
  {
    LookupExact(TableName(SaslSuccess), SaslSuccess);
    TypeTagMatchesTable(SaslSuccess);
    assert ReadNext(EmptyBindStream(), 2).result.Ok?;
    assert ReadNext(EmptyBindStream(), 2).next == 3;
    EmptyBindRestart();
  }

  /** The check for a missing `<bind>` (xmpp.go:223) compares the address of a
      field with nil and never fires: a bind result without a JID completes the
      handshake and binds the empty JID. */
  lemma EmptyJidCanBeBound()
    ensures Handshake("a@b", "p", EmptyBindStream()).err == None
    ensures Handshake("a@b", "p", EmptyBindStream()).jid == Some("")
  {
    var s := EmptyBindStream();
    assert Addressing.SplitJid("a@b") == Ok(("a", "b")) by {
      Addressing.SplitJidJoin("a", "b");
      assert "a" + "@" + "b" == "a@b";
    }
    assert ReadStart(s, 0).result.value.name == StreamRoot;
    assert ReadElement(s, 1, FeaturesName).next == 2;
    EmptyBindAuth();
  }

  /** A decodable `<success>` answering `<auth>` makes `init` send the restart
      header and go on after that element (xmpp.go:187-202). */
  lemma SuccessRestarts(domain: string, s: Stream, pos: nat, f: Fields, extent: nat)
    requires pos < |s.tokens| && s.tokens[pos] == Start(StartElement(TableName(SaslSuccess), Decoded(f), extent))
    ensures RunAuthSent(domain, s, pos) == Then(RestartHeader(domain), RunRestarted(s, ElementEnd(s, pos)))
  {
    ReadNextDecodes(s, pos, SaslSuccess, f, extent);
  }

  /** When the element after the second stream root is not `<features>`, only its
      start tag is consumed and the bind request still goes out: the answer to it
      is then looked for from the first token inside that element (xmpp.go:214-219). */
  lemma RestartedKeepsMismatchedContent(s: Stream, pos: nat)
    requires pos <= |s.tokens|
    requires ReadStart(s, pos).result.Ok? && ReadStart(s, pos).result.value.name == StreamRoot
    requires var k := FindStart(s.tokens, ReadStart(s, pos).next);
      k < |s.tokens| && s.tokens[k].element.name != FeaturesName
    ensures var k := FindStart(s.tokens, ReadStart(s, pos).next);
      RunRestarted(s, pos) == Then(BindRequest, RunBindSent(s, k + 1))
  {
    var root := ReadStart(s, pos);
    var k := FindStart(s.tokens, root.next);
    var features := ReadElement(s, root.next, FeaturesName);
    assert features.next == k + 1 by {
      assert NameCheck(FeaturesName, s.tokens[k].element.name).Some?;
    }
    assert RunRestarted(s, pos) == Then(BindRequest, RunBindSent(s, features.next));
  }

  /** So when the first start element after that element's start tag, at `q`
      (text between them is skipped), is not `<iq>`, it is what the bind step
      reads, and `init` fails naming it. */
  lemma MismatchedFeaturesChildFailsBind(s: Stream, pos: nat, q: nat)
    requires pos <= |s.tokens|
    requires ReadStart(s, pos).result.Ok? && ReadStart(s, pos).result.value.name == StreamRoot
    requires var k := FindStart(s.tokens, ReadStart(s, pos).next);
      && k < |s.tokens| && s.tokens[k].element.name != FeaturesName
      && FirstStart(s.tokens, k + 1, q) && s.tokens[q].element.name.local != "iq"
    ensures var o := RunRestarted(s, pos);
      && o.writes == [BindRequest] && o.jid.None?
      && o.err == Some(Failed("unmarshal <iq>: "
           + ("expected element type <" + "iq" + "> but have <" + s.tokens[q].element.name.local + ">")))
  {
    var k := FindStart(s.tokens, ReadStart(s, pos).next);
    RestartedMeetsWrongChild(s, pos, k, q);
    assert [BindRequest] + [] == [BindRequest];
  }

  /** The same with the mismatched element's position `k` named: `init` writes
      the bind request and then stops with the bind step's error. */
  lemma RestartedMeetsWrongChild(s: Stream, pos: nat, k: nat, q: nat)
    requires pos <= |s.tokens|
    requires ReadStart(s, pos).result.Ok? && ReadStart(s, pos).result.value.name == StreamRoot
    requires k == FindStart(s.tokens, ReadStart(s, pos).next)
    requires k < |s.tokens| && s.tokens[k].element.name != FeaturesName
    requires FirstStart(s.tokens, k + 1, q) && s.tokens[q].element.name.local != "iq"
    ensures RunRestarted(s, pos) == Then(BindRequest, Stop(q + 1, Failed("unmarshal <iq>: "
      + ("expected element type <" + "iq" + "> but have <" + s.tokens[q].element.name.local + ">"))))
  {
    RestartedKeepsMismatchedContent(s, pos);
    BindReadsWrongElement(s, k + 1, q);
    var bind := RunBindSent(s, k + 1);
    assert bind == Stop(q + 1, Failed("unmarshal <iq>: "
      + ("expected element type <" + "iq" + "> but have <" + s.tokens[q].element.name.local + ">")));
    assert RunRestarted(s, pos) == Then(BindRequest, bind);
  }

  /** The bind step, whose first start element from `pos` on, at `q` (after any
      text or end tokens), is not `<iq>`, fails naming it and consumes only its
      start tag (xmpp.go:219-222). */
  lemma BindReadsWrongElement(s: Stream, pos: nat, q: nat)
    requires FirstStart(s.tokens, pos, q) && s.tokens[q].element.name.local != "iq"
    ensures RunBindSent(s, pos) == Stop(q + 1, Failed("unmarshal <iq>: "
      + ("expected element type <" + "iq" + "> but have <" + s.tokens[q].element.name.local + ">")))
  {
    var child := s.tokens[q].element.name;
    var m := "expected element type <" + "iq" + "> but have <" + child.local + ">";
    FindStartIsFirst(s.tokens, pos, q);
    assert ReadElement(s, pos, IqName) == Step(Err(Failed(m)), q + 1) by {
      assert NameCheck(IqName, child) == Some(m);
    }
  }

  /** `Recv` passes over character data and end tokens. */
  lemma ReceiveSkipsText(s: Stream, pos: nat)
    requires pos < |s.tokens| && !s.tokens[pos].Start?
    ensures Receive(s, pos) == Receive(s, pos + 1)
  {
    assert FindStart(s.tokens, pos) == FindStart(s.tokens, pos + 1);
    assert ReadStart(s, pos) == ReadStart(s, pos + 1);
    assert ReadNext(s, pos) == ReadNext(s, pos + 1);
  }

  /** `Recv` discards a decoded element of any kind other than Message and
      Presence and goes on after its end.  `<starttls>` is not among them: its
      decoding always fails (`Dispatch.ReadNextStartTls`). */
  lemma ReceiveDiscards(s: Stream, pos: nat, k: Kind, f: Fields, extent: nat)
    requires pos < |s.tokens| && s.tokens[pos] == Start(StartElement(TableName(k), Decoded(f), extent))
    requires k != Message && k != Presence && k != TlsStartTls && HasPointerTarget(k)
    ensures Receive(s, pos) == Receive(s, ElementEnd(s, pos))
  {
    LookupExact(TableName(k), k);
    TypeTagMatchesTable(k);
  }

  /** `Recv` returns a decoded Message or Presence as soon as it meets one. */
  lemma ReceiveDelivers(s: Stream, pos: nat, k: Kind, f: Fields, extent: nat)
    requires pos < |s.tokens| && s.tokens[pos] == Start(StartElement(TableName(k), Decoded(f), extent))
    requires k == Message || k == Presence
    ensures Receive(s, pos) == Step(Ok(Value(k, f)), ElementEnd(s, pos))
  {
    LookupExact(TableName(k), k);
    TypeTagMatchesTable(k);
  }

  /** One turn of the `Recv` loop that passes an element over. */
  lemma ReceiveStep(s: Stream, pos: nat)
    requires pos <= |s.tokens|
    requires ReadNext(s, pos).result.Ok?
    requires ReadNext(s, pos).result.value.value.kind != Message
    requires ReadNext(s, pos).result.value.value.kind != Presence
    ensures Receive(s, pos) == Receive(s, ReadNext(s, pos).next)
  {
  }

  /** The turn of the `Recv` loop whose `next` fails returns that error, and the
      decoder stays where `next` left it. */
  lemma ReceiveStopsAtError(s: Stream, pos: nat)
    requires pos <= |s.tokens|
    requires ReadNext(s, pos).result.Err?
    ensures Receive(s, pos) == Step(Err(ReadNext(s, pos).result.error), ReadNext(s, pos).next)
  {
  }

  /** The `Recv` loop, started at `pos`, reaches `q` by passing over elements that
      decode to kinds other than Message and Presence. */
  predicate Passes(s: Stream, pos: nat, q: nat)
    requires pos <= |s.tokens|
    decreases |s.tokens| - pos
  {
    || pos == q
    || (var d := ReadNext(s, pos);
        && d.result.Ok?
        && d.result.value.value.kind != Message && d.result.value.value.kind != Presence
        && Passes(s, d.next, q))
  }

  /** Wherever the loop passes to, `Recv` ends as it would started there. */
  lemma {:induction false} ReceivePasses(s: Stream, pos: nat, q: nat)
    requires pos <= |s.tokens| && Passes(s, pos, q)
    ensures pos <= q <= |s.tokens| && Receive(s, pos) == Receive(s, q)
    decreases |s.tokens| - pos
  {
    if pos != q {
      var d := ReadNext(s, pos);
      ReceiveStep(s, pos);
      ReceivePasses(s, d.next, q);
    }
  }

  /** Every error `Recv` returns is the error of the first call of `next` that
      does not pass an element over: each earlier call decoded a kind other than
      Message and Presence, and the decoder stays where the failing call left it. */
  lemma {:induction false} ReceiveErrorIsNextError(s: Stream, pos: nat)
    requires pos <= |s.tokens|
    requires Receive(s, pos).result.Err?
    ensures exists q: nat | pos <= q <= |s.tokens| ::
      (Passes(s, pos, q) && ReadNext(s, q).result.Err?
       && Receive(s, pos) == Step(Err(ReadNext(s, q).result.error), ReadNext(s, q).next))
    decreases |s.tokens| - pos
  {
    var d := ReadNext(s, pos);
    if d.result.Err? {
      ReceiveStopsAtError(s, pos);
      assert Passes(s, pos, pos);
    } else {
      ReceiveStep(s, pos);
      ReceiveErrorIsNextError(s, d.next);
      var q: nat :| d.next <= q <= |s.tokens| && Passes(s, d.next, q) && ReadNext(s, q).result.Err?
        && Receive(s, d.next) == Step(Err(ReadNext(s, q).result.error), ReadNext(s, q).next);
      assert Passes(s, pos, q);
    }
  }
}
