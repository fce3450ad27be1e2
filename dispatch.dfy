/** The qualified-name dispatcher: `nextStart` and `next` (xmpp.go:381-451). */
module Dispatch {
  import opened Errors
  import opened Xml

  const NsStream: string := "http://etherx.jabber.org/streams"
  const NsTls: string := "urn:ietf:params:xml:ns:xmpp-tls"
  const NsSasl: string := "urn:ietf:params:xml:ns:xmpp-sasl"
  const NsBind: string := "urn:ietf:params:xml:ns:xmpp-bind"
  const NsClient: string := "jabber:client"

  /** The Go type `next` allocates for an element, one per table entry. */
  datatype Kind =
    | StreamFeatures | StreamError
    | TlsStartTls | TlsProceed | TlsFailure
    | SaslMechanisms | SaslChallenge | SaslResponse | SaslAbort | SaslSuccess | SaslFailure
    | BindBind
    | Message | Presence | ClientIq | ClientError

  /** A decoded element: its kind and its (abstract) contents. */
  datatype Value = Value(kind: Kind, fields: Fields)

  /** What `next` returns on success: the start element's name and the decoded value. */
  datatype Dispatched = Dispatched(name: QName, value: Value)

  /** The switch key at xmpp.go:408. */
  function Key(n: QName): string
  {
    n.space + " " + n.local
  }

  /** The `switch` of xmpp.go:408-444, keyed by the joined string. */
  function LookupKey(key: string): (r: Option<Kind>)
    ensures r.Some? ==> key == Key(TableName(r.value))
  {
    if key == NsStream + " features" then CaseLabelsStream(); Some(StreamFeatures)
    else if key == NsStream + " error" then CaseLabelsStream(); Some(StreamError)
    else if key == NsTls + " starttls" then CaseLabelsTls(); Some(TlsStartTls)
    else if key == NsTls + " proceed" then CaseLabelsTls(); Some(TlsProceed)
    else if key == NsTls + " failure" then CaseLabelsTls(); Some(TlsFailure)
    else if key == NsSasl + " mechanisms" then CaseLabelsSasl(); Some(SaslMechanisms)
    else if key == NsSasl + " challenge" then CaseLabelsSasl(); Some(SaslChallenge)
    else if key == NsSasl + " response" then CaseLabelsSasl(); Some(SaslResponse)
    else if key == NsSasl + " abort" then CaseLabelsSasl(); Some(SaslAbort)
    else if key == NsSasl + " success" then CaseLabelsSasl(); Some(SaslSuccess)
    else if key == NsSasl + " failure" then CaseLabelsSasl(); Some(SaslFailure)
    else if key == NsBind + " bind" then CaseLabelsBind(); Some(BindBind)
    else if key == NsClient + " message" then CaseLabelsClient(); Some(Message)
    else if key == NsClient + " presence" then CaseLabelsClient(); Some(Presence)
    else if key == NsClient + " iq" then CaseLabelsClient(); Some(ClientIq)
    else if key == NsClient + " error" then CaseLabelsClient(); Some(ClientError)
    else None
  }

  /** The lookup `next` performs on a start element's name. */
  function Lookup(n: QName): (r: Option<Kind>)
    ensures r.Some? ==> n == TableName(r.value)
  {
    match LookupKey(Key(n))
    case None => None
    case Some(k) =>
      CaseLabel(n, k);
      Some(k)
  }

  /** The same table keyed by the (space, local) pair itself, compared field by field. */
  function KindOf(n: QName): Option<Kind>
  {
    if n.space == NsStream then
      if n.local == "features" then Some(StreamFeatures)
      else if n.local == "error" then Some(StreamError)
      else None
    else if n.space == NsTls then
      if n.local == "starttls" then Some(TlsStartTls)
      else if n.local == "proceed" then Some(TlsProceed)
      else if n.local == "failure" then Some(TlsFailure)
      else None
    else if n.space == NsSasl then
      if n.local == "mechanisms" then Some(SaslMechanisms)
      else if n.local == "challenge" then Some(SaslChallenge)
      else if n.local == "response" then Some(SaslResponse)
      else if n.local == "abort" then Some(SaslAbort)
      else if n.local == "success" then Some(SaslSuccess)
      else if n.local == "failure" then Some(SaslFailure)
      else None
    else if n.space == NsBind then
      if n.local == "bind" then Some(BindBind)
      else None
    else if n.space == NsClient then
      if n.local == "message" then Some(Message)
      else if n.local == "presence" then Some(Presence)
      else if n.local == "iq" then Some(ClientIq)
      else if n.local == "error" then Some(ClientError)
      else None
    else None
  }

  /** The table read the other way: the one qualified name each kind answers to. */
  function TableName(k: Kind): (n: QName)
    ensures KindOf(n) == Some(k)
  {
    assert NsStream[0] != NsSasl[0] && NsStream[0] != NsBind[0] && NsSasl[28] != NsBind[28];
    match k
    case StreamFeatures => QName(NsStream, "features")
    case StreamError => QName(NsStream, "error")
    case TlsStartTls => QName(NsTls, "starttls")
    case TlsProceed => QName(NsTls, "proceed")
    case TlsFailure => QName(NsTls, "failure")
    case SaslMechanisms => QName(NsSasl, "mechanisms")
    case SaslChallenge => QName(NsSasl, "challenge")
    case SaslResponse => QName(NsSasl, "response")
    case SaslAbort => QName(NsSasl, "abort")
    case SaslSuccess => QName(NsSasl, "success")
    case SaslFailure => QName(NsSasl, "failure")
    case BindBind => QName(NsBind, "bind")
    case Message => QName(NsClient, "message")
    case Presence => QName(NsClient, "presence")
    case ClientIq => QName(NsClient, "iq")
    case ClientError => QName(NsClient, "error")
  }

  /** The pair-keyed table holds exactly the names `TableName` gives. */
  lemma KindOfExact(n: QName, k: Kind)
    ensures KindOf(n) == Some(k) <==> n == TableName(k)
  {
    if KindOf(n) == Some(k) {
      if n.space == NsStream {
      } else if n.space == NsTls {
      } else if n.space == NsSasl {
      } else if n.space == NsBind {
      } else {
        assert n.space == NsClient;
      }
    }
  }

  lemma NoSpaceInNamespaces()
    ensures ' ' !in NsStream && ' ' !in NsTls && ' ' !in NsSasl && ' ' !in NsBind && ' ' !in NsClient
  {
  }

  lemma NoSpaceInTable(k: Kind)
    ensures ' ' !in TableName(k).space && ' ' !in TableName(k).local
  {
    NoSpaceInNamespaces();
    match k
    case StreamFeatures =>
    case StreamError =>
    case TlsStartTls =>
    case TlsProceed =>
    case TlsFailure =>
    case SaslMechanisms =>
    case SaslChallenge =>
    case SaslResponse =>
    case SaslAbort =>
    case SaslSuccess =>
    case SaslFailure =>
    case BindBind =>
    case Message =>
    case Presence =>
    case ClientIq =>
    case ClientError =>
  }

  /** The case labels of the switch are the joined table names. */
  lemma CaseLabelsStream()
    ensures NsStream + " features" == Key(TableName(StreamFeatures))
    ensures NsStream + " error" == Key(TableName(StreamError))
  {
  }

  lemma CaseLabelsTls()
    ensures NsTls + " starttls" == Key(TableName(TlsStartTls))
    ensures NsTls + " proceed" == Key(TableName(TlsProceed))
    ensures NsTls + " failure" == Key(TableName(TlsFailure))
  {
  }

  lemma CaseLabelsSasl()
    ensures NsSasl + " mechanisms" == Key(TableName(SaslMechanisms))
    ensures NsSasl + " challenge" == Key(TableName(SaslChallenge))
    ensures NsSasl + " response" == Key(TableName(SaslResponse))
    ensures NsSasl + " abort" == Key(TableName(SaslAbort))
    ensures NsSasl + " success" == Key(TableName(SaslSuccess))
    ensures NsSasl + " failure" == Key(TableName(SaslFailure))
  {
  }

  lemma CaseLabelsBind()
    ensures NsBind + " bind" == Key(TableName(BindBind))
  {
  }

  lemma CaseLabelsClient()
    ensures NsClient + " message" == Key(TableName(Message))
    ensures NsClient + " presence" == Key(TableName(Presence))
    ensures NsClient + " iq" == Key(TableName(ClientIq))
    ensures NsClient + " error" == Key(TableName(ClientError))
  {
  }

  /** Joining with a space is unambiguous when the right-hand pair has no space:
      the one space of `s0 + " " + l0` fixes where `s` ends. */
  lemma KeySplit(s: string, l: string, s0: string, l0: string)
    requires ' ' !in s0 && ' ' !in l0
    ensures s + " " + l == s0 + " " + l0 <==> s == s0 && l == l0
  {
    var a, b := s + " " + l, s0 + " " + l0;
    if a == b {
      assert a[|s|] == ' ';
      assert s == a[..|s|] == b[..|s0|] == s0;
      assert l == a[|s| + 1..] == b[|s0| + 1..] == l0;
    }
  }

  /** The entry for `k` in the string-keyed switch matches `key` exactly when
      `key` is the joined name of `k`. */
  lemma CaseLabel(n: QName, k: Kind)
    ensures Key(n) == Key(TableName(k)) <==> n == TableName(k)
  {
    NoSpaceInTable(k);
    KeySplit(n.space, n.local, TableName(k).space, TableName(k).local);
  }

  /** The lookup by joined string agrees with the lookup by (space, local) pair for
      every name: no table entry holds a space, so no two pairs join to one key. */
  lemma LookupAgrees(n: QName)
    ensures Lookup(n) == KindOf(n)
  {
    CaseLabelsStream();
    CaseLabelsTls();
    CaseLabelsSasl();
    CaseLabelsBind();
    CaseLabelsClient();
    CaseLabel(n, StreamFeatures);
    CaseLabel(n, StreamError);
    CaseLabel(n, TlsStartTls);
    CaseLabel(n, TlsProceed);
    CaseLabel(n, TlsFailure);
    CaseLabel(n, SaslMechanisms);
    CaseLabel(n, SaslChallenge);
    CaseLabel(n, SaslResponse);
    CaseLabel(n, SaslAbort);
    CaseLabel(n, SaslSuccess);
    CaseLabel(n, SaslFailure);
    CaseLabel(n, BindBind);
    CaseLabel(n, Message);
    CaseLabel(n, Presence);
    CaseLabel(n, ClientIq);
    CaseLabel(n, ClientError);
  }

  /** Hence the switch maps a name to a kind exactly when it is that kind's name. */
  lemma LookupExact(n: QName, k: Kind)
    ensures Lookup(n) == Some(k) <==> n == TableName(k)
  {
    LookupAgrees(n);
    KindOfExact(n, k);
  }

  /** Challenge and response are mapped to `""`, a string and not a pointer
      (xmpp.go:421-424), and decoding into a non-pointer always fails. */
  predicate HasPointerTarget(k: Kind)
  {
    k != SaslChallenge && k != SaslResponse
  }

  const NonPointerError: string := "non-pointer passed to Unmarshal"

  /** The name space in the `XMLName` tag of `tlsStartTLS` (xmpp.go:279): the
      TLS name space without its leading `urn`. */
  const StartTlsTagSpace: string := ":ietf:params:xml:ns:xmpp-tls"

  /** The `XMLName` tag of the Go type `next` allocates for `k` (xmpp.go:262-379);
      the string types of challenge and response have none. */
  function TypeTag(k: Kind): QName
    requires HasPointerTarget(k)
  {
    match k
    case StreamFeatures => QName(NsStream, "features")
    case StreamError => QName(NsStream, "error")
    case TlsStartTls => QName(StartTlsTagSpace, "starttls")
    case TlsProceed => QName(NsTls, "proceed")
    case TlsFailure => QName(NsTls, "failure")
    case SaslMechanisms => QName(NsSasl, "mechanisms")
    case SaslAbort => QName(NsSasl, "abort")
    case SaslSuccess => QName(NsSasl, "success")
    case SaslFailure => QName(NsSasl, "failure")
    case BindBind => QName(NsBind, "bind")
    case Message => QName(NsClient, "message")
    case Presence => QName(NsClient, "presence")
    case ClientIq => QName(NsClient, "iq")
    case ClientError => QName(NsClient, "error")
  }

  /** Every type's tag is the name its table entry answers to, except that of
      `tlsStartTLS`, whose name space lacks `urn`. */
  lemma TypeTagMatchesTable(k: Kind)
    requires HasPointerTarget(k)
    ensures TypeTag(k).local != "" && TypeTag(k).space != ""
    ensures TypeTag(k) == TableName(k) <==> k != TlsStartTls
  {
    if k == TlsStartTls {
      assert TypeTag(k).space[0] != TableName(k).space[0];
    }
  }

  /** The error for a name outside the table (xmpp.go:441-443). */
  function UnexpectedMessage(n: QName): (e: Error)
  {
    Failed("unexpected XMPP message " + n.space + " <" + n.local + "/>")
  }

  /** What `nextStart` does from `pos`: the first start element, skipping every
      other token; running out of tokens is fatal (`log.Fatal`). */
  function ReadStart(s: Stream, pos: nat): (r: Step<StartElement>)
    requires pos <= |s.tokens|
    ensures pos <= r.next <= |s.tokens|
    ensures forall j | pos <= j < r.next - 1 :: !s.tokens[j].Start?
    ensures r.result.Ok? ==> pos < r.next && s.tokens[r.next - 1] == Start(r.result.value)
    ensures r.result.Err? ==>
      r.result.error == Fatal(s.tail) && r.next == |s.tokens| && forall j | pos <= j < |s.tokens| :: !s.tokens[j].Start?
  {
    var k := FindStart(s.tokens, pos);
    if k < |s.tokens| then Step(Ok(s.tokens[k].element), k + 1)
    else Step(Err(Fatal(s.tail)), k)
  }

  /** What `next` does from `pos`. */
  function ReadNext(s: Stream, pos: nat): (r: Step<Dispatched>)
    requires pos <= |s.tokens|
    ensures pos <= r.next <= |s.tokens|
    ensures r.result.Ok? ==>
      var d := r.result.value;
      var k := ReadStart(s, pos).next - 1;
      && ReadStart(s, pos).result.Ok?
      && pos <= k < |s.tokens|
      && s.tokens[k].element.name == d.name
      && s.tokens[k].element.body == Decoded(d.value.fields)
      && r.next == ElementEnd(s, k)
      && Lookup(d.name) == Some(d.value.kind)
      && HasPointerTarget(d.value.kind)
      && d.name == TypeTag(d.value.kind)
  {
    var st := ReadStart(s, pos);
    match st.result
    case Err(e) => Step(Err(e), st.next)
    case Ok(_) => DispatchAt(s, st.next - 1)
  }

  /** What `next` does once it has read the start element at `k`: the table
      lookup, then decoding the element into a value of the kind found. */
  function DispatchAt(s: Stream, k: nat): (r: Step<Dispatched>)
    requires k < |s.tokens| && s.tokens[k].Start?
    ensures k < r.next <= |s.tokens|
    ensures r.result.Ok? ==>
      var d := r.result.value;
      && s.tokens[k].element.name == d.name
      && s.tokens[k].element.body == Decoded(d.value.fields)
      && r.next == ElementEnd(s, k)
      && Lookup(d.name) == Some(d.value.kind)
      && HasPointerTarget(d.value.kind)
      && d.name == TypeTag(d.value.kind)
  {
    var se := s.tokens[k].element;
    match Lookup(se.name)
    case None => Step(Err(UnexpectedMessage(se.name)), k + 1)
    case Some(kind) =>
      if !HasPointerTarget(kind) then Step(Err(Failed(NonPointerError)), k + 1)
      else
        TypeTagMatchesTable(kind);
        var u := Unmarshal(s, k, TypeTag(kind));
        match u.result
        case Err(e) => Step(Err(e), u.next)
        case Ok(f) => Step(Ok(Dispatched(se.name, Value(kind, f))), u.next)
  }

  /** A successful dispatch returns the start element's own name together with the
      kind the table fixes for it. */
  lemma ReadNextName(s: Stream, pos: nat)
    requires pos <= |s.tokens|
    requires ReadNext(s, pos).result.Ok?
    ensures var d := ReadNext(s, pos).result.value;
      && d.name == TableName(d.value.kind) && d.name == ReadStart(s, pos).result.value.name
      && d.value.kind != TlsStartTls
  {
    var d := ReadNext(s, pos).result.value;
    LookupExact(d.name, d.value.kind);
    TypeTagMatchesTable(d.value.kind);
  }

  /** The converse of `ReadNext`'s contract: a decodable element named in the
      table, whose kind has a pointer target and a tag that matches its name, is
      returned by `next` with its kind and body, and the cursor moves past its end. */
  lemma ReadNextDecodes(s: Stream, pos: nat, k: Kind, f: Fields, extent: nat)
    requires pos < |s.tokens| && s.tokens[pos] == Start(StartElement(TableName(k), Decoded(f), extent))
    requires HasPointerTarget(k) && k != TlsStartTls
    ensures ReadNext(s, pos) == Step(Ok(Dispatched(TableName(k), Value(k, f))), ElementEnd(s, pos))
  {
    LookupExact(TableName(k), k);
    TypeTagMatchesTable(k);
  }

  /** A name outside the table fails, naming both its space and its local part. */
  lemma ReadNextUnknown(s: Stream, pos: nat)
    requires pos <= |s.tokens|
    requires ReadStart(s, pos).result.Ok?
    requires forall k: Kind :: ReadStart(s, pos).result.value.name != TableName(k)
    ensures var n := ReadStart(s, pos).result.value.name;
      ReadNext(s, pos) == Step(Err(UnexpectedMessage(n)), ReadStart(s, pos).next)
  {
    var n := ReadStart(s, pos).result.value.name;
    if Lookup(n).Some? {
      LookupExact(n, Lookup(n).value);
    }
  }

  /** The message text names the space and the local name, in that order. */
  lemma UnexpectedMessageNames(n: QName)
    ensures var m := UnexpectedMessage(n).message;
      var p := |"unexpected XMPP message "|;
      m[p..p + |n.space|] == n.space && m[p + |n.space| + 2..p + |n.space| + 2 + |n.local|] == n.local
  {
  }

  /** Challenge and response are in the table, yet `next` always fails on them,
      consuming only the start tag. */
  lemma ReadNextChallenge(s: Stream, pos: nat, k: Kind)
    requires pos <= |s.tokens| && (k == SaslChallenge || k == SaslResponse)
    requires ReadStart(s, pos).result.Ok? && ReadStart(s, pos).result.value.name == TableName(k)
    ensures ReadNext(s, pos) == Step(Err(Failed(NonPointerError)), ReadStart(s, pos).next)
  {
    var st := ReadStart(s, pos);
    var at := st.next - 1;
    assert s.tokens[at].element.name == TableName(k);
    LookupExact(TableName(k), k);
    assert DispatchAt(s, at) == Step(Err(Failed(NonPointerError)), at + 1);
  }

  /** `<starttls>` is in the table, but its type's tag names another name space,
      so decoding it always fails, and only its start tag is consumed. */
  lemma ReadNextStartTls(s: Stream, pos: nat)
    requires pos <= |s.tokens|
    requires ReadStart(s, pos).result.Ok?
    requires ReadStart(s, pos).result.value.name == TableName(TlsStartTls)
    ensures ReadNext(s, pos) == Step(Err(Failed(
      "expected element <" + "starttls" + "> in name space " + StartTlsTagSpace + " but have " + NsTls)),
      ReadStart(s, pos).next)
  {
    LookupExact(TableName(TlsStartTls), TlsStartTls);
    var n := TableName(TlsStartTls);
    assert StartTlsTagSpace[0] != n.space[0];
    var m := "expected element <" + "starttls" + "> in name space " + StartTlsTagSpace + " but have " + NsTls;
    assert NameCheck(TypeTag(TlsStartTls), n) == Some(m);
    var k := ReadStart(s, pos).next - 1;
    assert s.tokens[k].element.name == n;
    assert Unmarshal(s, k, TypeTag(TlsStartTls)) == Step(Err(Failed(m)), k + 1);
  }

  /** `nextStart`: read tokens until a start element. */
  method NextStart(p: Decoder) returns (r: Result<StartElement>)
    requires p.Valid()
    modifies p
    ensures p.Valid()
    ensures Step(r, p.pos) == ReadStart(p.stream, old(p.pos))
  {
    ghost var from := p.pos;
    while true
      invariant p.Valid() && from <= p.pos
      invariant FindStart(p.stream.tokens, from) == FindStart(p.stream.tokens, p.pos)
      decreases |p.stream.tokens| - p.pos
    {
      var t := p.Token();
      if t.Err? {
        return Err(Fatal(t.error.Text()));
      }
      if t.value.Start? {
        return Ok(t.value.element);
      }
    }
  }

  /** `next`: the next start element, looked up in the table and decoded. */
  method Next(p: Decoder) returns (r: Result<Dispatched>)
    requires p.Valid()
    modifies p
    ensures p.Valid()
    ensures Step(r, p.pos) == ReadNext(p.stream, old(p.pos))
  {
    var se := NextStart(p);
    if se.Err? {
      return Err(se.error);
    }
    var name := se.value.name;
    var kind := Lookup(name);
    if kind.None? {
      return Err(UnexpectedMessage(name));
    }
    if !HasPointerTarget(kind.value) {
      return Err(Failed(NonPointerError));
    }
    TypeTagMatchesTable(kind.value);
    var v := p.DecodeStarted(se.value, TypeTag(kind.value));
    if v.Err? {
      return Err(v.error);
    }
    return Ok(Dispatched(name, Value(kind.value, v.value)));
  }
}
