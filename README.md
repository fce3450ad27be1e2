# A verified model of the go-xmpp client handshake

This project models the core of `xmpp.go`, a small Go client for XMPP
(RFC 3920 and RFC 3921). The core covers five pieces:

- **Attribute escaping.** `xmlEscape` applies the five predefined entities of
  section 4.6 of XML 1.0 byte by byte.
- **Addresses.** The JID is split at its first `@`. A blank host is replaced by
  the JID's domain. Port 5222 is added when the host has no port, and the port
  is cut off again before hostname verification.
- **The dispatcher.** `nextStart` skips tokens up to the next start element.
  `next` looks up that element's (name space, local name) pair in a fixed
  16-entry table, decodes it, and returns a tagged value.
- **The handshake.** `init` opens the stream and reads the features. It sends
  SASL PLAIN (section 2 of RFC 4616), reads success or failure, restarts the
  stream, binds a resource and sends the initial presence.
- **`Recv`.** It returns the next Message or Presence and passes over the
  other kinds `next` decodes. An unknown name, a challenge, response or
  starttls, or an element that fails to decode ends it with the error of
  `next`.

Go strings are byte strings. Here a `string` stands for one, one char per
byte. The PLAIN payload is encoded with the base 64 alphabet of section 4 of
RFC 4648, and that encoding is modelled too.

The connection is abstracted on both sides:

- The server's side is a `Stream`: a fixed sequence of tokens
  (`Start | End | CharData`), followed by the error the reader reports once the
  tokens run out (`EOF`, or a syntax or transport error).
- A start token carries what decoding its whole element yields, and its
  extent: how many tokens follow it up to and including its end tag. Only the
  fields the client reads are kept: the advertised mechanisms, the SASL
  failure's `Any` name, and the bound JID.
- Decoding an element into a Go value checks the type's `XMLName` tag first,
  the local name and then the name space, as `encoding/xml` does. A mismatch
  consumes only the start tag. Otherwise the whole element is consumed.
- The client's side is a transcript: one entry per write, in order.

The `Client` class stands for the Go struct at xmpp.go:48-53. Its `tls`
connection becomes two fields: `conn`, the server's stream, and `written`, the
transcript. `dec` is a `Decoder`, a cursor into that stream. `jid` is the bound
JID. The struct's `enc` encoder is used only by `Send` and is left out with it.

After its first header, `init` passes through four states, one per write
(`Phase`: `Opened`, `AuthSent`, `Restarted`, `BindSent`). Each state's rest of
`init` is a function of the stream (`RunOpened`, `RunAuthSent`, `RunRestarted`,
`RunBindSent`). The methods are proved to leave exactly the state those
functions describe. The ordering, gating and error properties are proved about
the functions.

Behaviour of the code that the model keeps as written:

- The table entries for `challenge` and `response` select `""`, a string and
  not a pointer (xmpp.go:421-424). Decoding into it always fails with
  "non-pointer passed to Unmarshal", so `next` fails on both elements.
- The tag of `tlsStartTLS` names the space ":ietf:params:xml:ns:xmpp-tls",
  without the leading `urn` (xmpp.go:279). So `next` also always fails on
  `<starttls>`, because the name space of the element does not match the tag.
- `nextStart` calls `log.Fatal` when the reader fails (xmpp.go:385-387). The
  model returns this as the error `Fatal`, after which nothing else happens.
- `init` ignores the error of `next` after `<auth>` (xmpp.go:187). An ordinary
  error therefore becomes "expected <success> or <failure>, got <> in ".
- A failure to decode the second `<features>` is ignored (xmpp.go:212-215), and
  the tokens it consumed stay consumed. When the element there is not
  `<features>` at all, only its start tag is consumed, so the bind answer is
  looked for from the first token inside it.
- The check for a missing `<bind>` (xmpp.go:223) takes the address of a field,
  which is never nil. A bind result without a JID therefore completes the
  handshake with the empty JID (`EmptyJidCanBeBound`).
- The dispatch key is `space + " " + local` (xmpp.go:408). No table entry
  contains a space, so this lookup agrees with field-wise pair equality for
  every name (`LookupAgrees`, `LookupExact`). The separator causes no
  ambiguity here.

The code has no SASL EXTERNAL and no policy for choosing between mechanisms.
It does not refuse to authenticate over an unencrypted transport. Its check
for a missing bind result never fires. A read failure in `nextStart` ends the
process, and `Recv` has no end-of-stream signal of its own. The model has none
of these either.

## Model

| member | source | states |
|---|---|---|
| XmlEscape.Image | xmpp.go:453-459 | each of `<`, `>`, `"`, `'`, `&` maps to its entity, which starts with `&` and ends with `;`; every other byte maps to itself |
| XmlEscape.Escape | xmpp.go:461-472 | the loop over the bytes returns `Escaped(s)`, the concatenation of each byte's image |
| XmlEscape.EscapedHasNoRawMarkup | xmpp.go:461-472 | no raw `<`, `>`, `"` or `'` appears in escaped text |
| XmlEscape.EscapedAppend | xmpp.go:461-472 | escaping distributes over concatenation |
| XmlEscape.EscapedIdentity | xmpp.go:461-472 | escaping leaves a string unchanged if and only if it has none of the five bytes |
| XmlEscape.EscapedLength | xmpp.go:461-472 | escaped text is never shorter than the input |
| XmlEscape.UnescapedEscaped | xmpp.go:461-472 | reading the entities back gives the original string, so escaping loses nothing |
| Base64.ValueOf | xmpp.go:181-182 | a char's value in the base 64 alphabet is below 64 (or -1), and the alphabet maps that value back to the char |
| Base64.EncodeLength | xmpp.go:181 | the encoding fills exactly `EncodedLen(n) = 4 * ceil(n / 3)` bytes, the buffer size the code allocates |
| Base64.EncodeAlphabet | xmpp.go:182 | the encoding holds only alphabet chars, with `=` only in the last two places |
| Base64.DecodeEncode | xmpp.go:182 | decoding the encoding gives the input back |
| Addressing.IndexOf | xmpp.go:62 | the first position of the separator, or -1 exactly when it is absent |
| Addressing.LastIndex | xmpp.go:107 | the last position of the separator (no later position holds it), or -1 |
| Addressing.SplitN2 | xmpp.go:62 | `SplitN(s, sep, 2)`: one part equal to `s` if and only if `sep` is absent, otherwise a part without `sep`, then `sep`, then the rest |
| Addressing.SplitJid | xmpp.go:139-144 | fails with "xmpp: invalid username (want user@domain): " + JID if and only if there is no `@`; otherwise the user has no `@` and user + "@" + domain is the JID |
| Addressing.SplitJidJoin | xmpp.go:139-144 | joining an `@`-free user and any domain (which may contain `@`) and splitting again gives the same pair |
| Addressing.DefaultHost | xmpp.go:61-70 | a non-blank host is kept, with ":5222" added when it has no `:`; a blank host becomes the JID's domain (plus ":5222" when it has no `:`), or stays as it is plus ":5222" when the JID has no `@`; the result always has a `:` |
| Addressing.StripPort | xmpp.go:107-109 | the result is a prefix of the host; when the last `:` is past position 0 the result ends just before it, otherwise the host is unchanged |
| Addressing.StripPortJoin | xmpp.go:107-109 | stripping undoes adding a port to a non-empty name without `:` |
| Addressing.VerifiedNameIsDomain | xmpp.go:61-110 | with a blank host and a JID whose domain is non-empty and names no port (has no `:`), the name given to hostname verification is that domain |
| Addressing.DialAddressAsWritten | xmpp.go:59-81 | without a proxy, the dialled address is the host exactly as passed |
| Addressing.DialAddressAsWrittenSkipsDefault | xmpp.go:59-81 | an empty host with JID `a@b` dials "" although the defaulted host is "b:5222" |
| Addressing.DialAddress | xmpp.go:55-70 | corrected: without a proxy, the dialled address is the defaulted host and always contains a `:` |
| Xml.FindStart | xmpp.go:382-394 | the first start token at or after the cursor, or the end; everything skipped is not a start token |
| Xml.NameCheck | xmpp.go:447 | the check of a type's `XMLName` tag passes, for a tag with both parts set, if and only if the element's name equals the tag |
| Xml.Unmarshal | xmpp.go:447-449 | a tag mismatch fails with the check's message and consumes only the start tag; otherwise the whole element is consumed, and decoding succeeds exactly when the body decodes, giving that body |
| Xml.ReadElement | xmpp.go:165-167 | `DecodeElement(v, nil)` skips only non-start tokens and fails with the reader's error when none is left; success means the element met has the tagged name and a decodable body, which is the result, and the cursor is past the element's end |
| Xml.Decoder.constructor | xmpp.go:128-133 | a new decoder reads the connection from its first token |
| Xml.Decoder.Token | xmpp.go:384 | the next token advances the cursor by one; at the end the reader's error is returned and the cursor stays |
| Xml.Decoder.DecodeStarted | xmpp.go:447-449 | decoding after a start tag returns, and moves the cursor to, what `Unmarshal` describes: past the whole element, or just past the start tag on a mismatch |
| Xml.Decoder.DecodeElement | xmpp.go:220-222 | the loop returns, and moves the cursor to, what `ReadElement` describes |
| Dispatch.TableName | xmpp.go:409-440 | each kind's qualified name, which the pair-keyed table maps back to that kind |
| Dispatch.KindOfExact | xmpp.go:409-440 | the pair-keyed table maps a name to a kind if and only if it is that kind's name |
| Dispatch.LookupKey | xmpp.go:408-444 | every kind the string switch returns is the one whose joined name is the key |
| Dispatch.Lookup | xmpp.go:408-444 | every kind the lookup returns for a name is the one whose table name that is |
| Dispatch.NoSpaceInTable | xmpp.go:33-37 | no name space or local name in the table contains a space |
| Dispatch.KeySplit | xmpp.go:408 | `s + " " + l` equals `s0 + " " + l0` if and only if the pairs are equal, when `s0` and `l0` have no space |
| Dispatch.LookupAgrees | xmpp.go:408-444 | the switch on the joined string gives the same kind as field-wise lookup, for every name |
| Dispatch.LookupExact | xmpp.go:408-444 | the switch maps a name to a kind if and only if the name is that kind's table name |
| Dispatch.ReadStart | xmpp.go:382-394 | `nextStart` returns a start element, the one just before the new cursor, with only non-start tokens skipped; running out is fatal and leaves the cursor at the end |
| Dispatch.TypeTagMatchesTable | xmpp.go:262-379 | every tag has both parts set, and equals the table name of its kind for every kind except `<starttls>` |
| Dispatch.ReadNext | xmpp.go:399-451 | on success `next` read a start element whose name the table maps to the returned kind and which matches that kind's tag, and whose decoded body is the returned value; the cursor is then past the element's end |
| Dispatch.DispatchAt | xmpp.go:406-450 | after the start tag, success means the table maps the name to the kind, the kind's tag matches it and its body decodes; the cursor is then past the element's end |
| Dispatch.ReadNextName | xmpp.go:450 | the name returned is the start element's own name and the table name of the returned kind, which is never `<starttls>` |
| Dispatch.ReadNextDecodes | xmpp.go:399-451 | conversely, a decodable element named in the table whose kind has a pointer target and a matching tag (every kind but challenge, response and starttls) is returned by `next` with that kind and body, the cursor past its end |
| Dispatch.ReadNextUnknown | xmpp.go:441-443 | a name outside the table fails with "unexpected XMPP message " + space + " <" + local + "/>" |
| Dispatch.UnexpectedMessageNames | xmpp.go:442-443 | that error text holds the name space and then the local name |
| Dispatch.ReadNextChallenge | xmpp.go:421-424 | a SASL challenge or response always fails with "non-pointer passed to Unmarshal", consuming only the start tag |
| Dispatch.ReadNextStartTls | xmpp.go:278-279 | `<starttls>` always fails with "expected element <starttls> in name space :ietf:params:xml:ns:xmpp-tls but have urn:ietf:params:xml:ns:xmpp-tls", consuming only the start tag |
| Dispatch.NextStart | xmpp.go:382-394 | the token loop returns, and moves the cursor to, what `ReadStart` describes |
| Dispatch.Next | xmpp.go:399-451 | the dispatcher returns, and moves the cursor to, what `ReadNext` describes |
| Xmpp.Header | xmpp.go:147-150 | the first header is the XML declaration followed by the restart header |
| Xmpp.RestartHeader | xmpp.go:200-202 | the header opens with `<stream:stream to='`, the escaped domain and the closing quote, and the escaped domain holds no raw `<`, `>`, `"` or `'` |
| Xmpp.PlainMessage | xmpp.go:180 | the PLAIN message is two bytes longer than user and password together, and is a byte string when they are |
| Xmpp.FormatList | xmpp.go:176 | `%v` of the mechanisms is bracketed, as long as the items plus one separator between each pair and the two brackets, and starts with the first item |
| Xmpp.Advertised | xmpp.go:152-167 | the first features decode to a mechanism list only after the first stream root, from the first start element after it, named `<features>` |
| Xmpp.Script | xmpp.go:147-229 | the writes of a complete handshake are five, and the first is the XML declaration followed by the third |
| Xmpp.RunFollows | xmpp.go:152-230 | from every state, the rest of `init` writes a prefix of what remains, writes all of it exactly when it returns no error, and binds a JID exactly then |
| Xmpp.OpenedFollows | xmpp.go:152-184 | the same, from the state after the first header |
| Xmpp.AuthSentFollows | xmpp.go:186-202 | the same, from the state after `<auth>` |
| Xmpp.RestartedFollows | xmpp.go:204-218 | the same, from the state after the restart header |
| Xmpp.OpenedGate | xmpp.go:152-184 | after the header: `<auth>` goes out exactly when the first features advertise PLAIN; when they do not, the error lists the advertised mechanisms |
| Xmpp.AuthSentGate | xmpp.go:186-202 | after `<auth>`: the restart header goes out exactly when the reply is `<success>`; a `<failure>` gives "auth failure: " + its `Any` local name; an ordinary error of `next` gives "expected <success> or <failure>, got <> in " |
| Xmpp.RestartedGate | xmpp.go:204-218 | after the restart header: the bind request goes out exactly when the second stream root arrives, whatever reading the second features gives |
| Xmpp.BindSentBinds | xmpp.go:219-230 | after the bind request: a JID is bound exactly when the `<iq>` answer decodes, and it is the JID that answer carries |
| Xmpp.HandshakeOpens | xmpp.go:139-150 | with a well-formed JID, `init` writes the header and goes on in the first state, with a byte-string user |
| Xmpp.HasPlain | xmpp.go:168-174 | the loop finds PLAIN if and only if it is among the mechanisms |
| Xmpp.Receive | xmpp.go:234-249 | `Recv` succeeds only with a Message or a Presence |
| Xmpp.Client.constructor | xmpp.go:114-115 | a new client has no decoder, has written nothing and has an empty JID |
| Xmpp.Client.Init | xmpp.go:127-231 | the transcript grows by exactly the handshake's writes; the cursor, the error and the JID are the handshake's |
| Xmpp.Client.HandleOpened | xmpp.go:152-184 | the state after the header follows `RunOpened` |
| Xmpp.Client.HandleAuthSent | xmpp.go:186-202 | the state after `<auth>` follows `RunAuthSent` |
| Xmpp.Client.HandleRestarted | xmpp.go:204-218 | the state after the restart header follows `RunRestarted` |
| Xmpp.Client.HandleBindSent | xmpp.go:219-230 | the state after the bind request follows `RunBindSent` |
| Xmpp.Client.Recv | xmpp.go:234-249 | the loop returns, and moves the cursor to, what `Receive` describes |
| XmppProperties.BadJidWritesNothing | xmpp.go:139-147 | a JID without `@` fails with the invalid-username error, having written nothing and bound nothing |
| XmppProperties.HandshakeFollowsScript | xmpp.go:127-231 | the writes are a non-empty prefix of: header, auth, restart header, bind, presence; all five are written exactly when there is no error, and a JID is bound exactly then |
| XmppProperties.PlainGate | xmpp.go:168-184 | `<auth>` is written if and only if the first features advertise PLAIN; otherwise only the header was written and the error lists the mechanisms |
| XmppProperties.PlainPayloadDecodes | xmpp.go:179-184 | the payload is `EncodedLen(|user| + |passwd| + 2)` bytes long and decodes to NUL, user, NUL, password |
| XmppProperties.PayloadNeedsNoEscaping | xmpp.go:183-184 | the payload, written into `<auth>` unescaped, is unchanged by escaping |
| XmppProperties.HeaderDomainEscaped | xmpp.go:147-150 | the domain reaches the header escaped, with no raw markup byte and nothing lost |
| XmppProperties.EmptyJidCanBeBound | xmpp.go:219-226 | a server whose bind result has no JID completes the handshake and binds the empty JID |
| XmppProperties.SuccessRestarts | xmpp.go:187-202 | a decodable `<success>` answering `<auth>` makes `init` write the restart header and go on after that element |
| XmppProperties.RestartedKeepsMismatchedContent | xmpp.go:212-219 | when the element after the second stream root is not `<features>`, the bind request goes out and the `<iq>` answer is read from just after that element's start tag |
| XmppProperties.MismatchedFeaturesChildFailsBind | xmpp.go:212-221 | so the first start element after that element's start tag, with any text between skipped, is what the bind step reads when it is not `<iq>`, and `init` fails with "unmarshal <iq>: expected element type <iq> but have <" + its name + ">" |
| XmppProperties.RestartedMeetsWrongChild | xmpp.go:212-221 | after the second stream root, an element other than `<features>` at `k` where the first start element after its start tag, at `q` (text and end tokens skipped), is not `<iq>` makes `init` write the bind request and stop at `q + 1` with "unmarshal <iq>: expected element type <iq> but have <" + its name + ">" |
| XmppProperties.BindReadsWrongElement | xmpp.go:219-222 | the bind step, whose first start element after any text or end tokens is not `<iq>`, fails with "unmarshal <iq>: expected element type <iq> but have <" + its name + ">", consuming only its start tag |
| XmppProperties.ReceiveSkipsText | xmpp.go:388-391 | `Recv` passes over character data and end tokens |
| XmppProperties.ReceiveDiscards | xmpp.go:240-246 | `Recv` discards a decoded element of any kind other than Message and Presence (and `<starttls>`, which never decodes) and goes on after its end |
| XmppProperties.ReceiveDelivers | xmpp.go:240-245 | `Recv` returns the first decoded Message or Presence with its contents, the cursor past its end |
| XmppProperties.ReceiveStopsAtError | xmpp.go:236-239 | when `next` fails, `Recv` returns that error with the cursor where `next` left it |
| XmppProperties.ReceivePasses | xmpp.go:235-247 | wherever the loop passes to over non-Message, non-Presence elements, `Recv` ends as it would started there |
| XmppProperties.ReceiveErrorIsNextError | xmpp.go:235-239 | every error `Recv` returns is the error of a call of `next` at a position the loop passes to over elements of other kinds, with the cursor where that call left it |

## Findings

| source | as written | input that shows it | evidently intended | confidence | as-written member | corrected member |
|---|---|---|---|---|---|---|
| xmpp.go:59-81 | `net.Dial` is given `addr`, the host as passed in (line 59), so the defaulting of lines 61-70 reaches only the proxy `CONNECT` line and hostname verification | host "", JID "a@b", no proxy: the dial goes to "" instead of "b:5222"; host "example.com" dials an address without a port | dial the defaulted host, as the comment at lines 55-57 says | not executed; high (Go's `net.Dial` rejects an address without a port) | Addressing.DialAddressAsWrittenSkipsDefault | Addressing.DialAddress |

## Left out

- TCP dialling, the `HTTP_PROXY` lookup and the `CONNECT` tunnel (xmpp.go:71-100) are network and environment I/O. The proxy host enters only as the parameter `proxyHost` of the dial-address functions.
- The TLS handshake, `VerifyHostname` and `Close` (xmpp.go:102-125) are calls into the TLS library. Only the name passed to verification is modelled (`StripPort`).
- The `DefaultConfig` debug tee and multi-writer (xmpp.go:40-46, 128-137) is process-wide I/O wiring.
- `encoding/xml` is not part of this model. Its decoding into the types at xmpp.go:262-379 is abstracted: a start token carries what its element decodes to, as the fields the client reads or as a decoding error, and how many tokens its element spans. The contents of Message, Presence and the other types are not modelled.
- Xml.NameCheck: the error texts for a name mismatch follow `encoding/xml`, which is not part of this model.
- Xmpp.AuthSentGate: the model takes the failure's `Any` name as the decoder supplies it. It does not decide what `encoding/xml` puts into an untagged `xml.Name` field.
- Xml.Unmarshal: when an element's name matches but its body cannot be decoded, the whole element is taken as consumed. `encoding/xml` may stop inside it, at the token that failed.
- `Send` (xmpp.go:252-258) is a thin wrapper around the XML encoder and is not modelled, and neither is the `enc` field of `Client` (xmpp.go:52) that only it uses.
- `fmt.Println` in `Recv` (xmpp.go:246) is a no-op in the model. The `log.Fatal` at xmpp.go:386 becomes the error `Fatal`.
- Writes to the connection always succeed in the model. The code ignores the results of its `Fprintf` calls.
- Addressing.DefaultHost: "blank" means only ASCII white space (space, tab, newline, carriage return, vertical tab, form feed). A host made of multi-byte Unicode spaces, such as U+00A0 in UTF-8, is not recognised as blank, although `strings.TrimSpace` would trim it.
- A `Decoded` element whose extent runs past the end of the stream still decodes, while `encoding/xml` would fail with an unexpected EOF. Such an element is meant to carry `Undecodable`; the model does not enforce this on its streams.
- Base64: the encoder requires every char to be below 256. That is what a Go byte string is, not a demand on callers.
- The tests in xmpp_test.go target a different API (`Options`, SASL EXTERNAL, `Chat`) that xmpp.go does not have. They are not modelled.
