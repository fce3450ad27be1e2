/** The token stream the client reads: an abstraction of Go's `xml.Decoder` over
    the connection.  The connection's bytes are fixed in advance as a sequence of
    tokens; the decoder is a cursor into it.  A start token carries what decoding
    its element gives, and how many tokens after it (children, text, end tag)
    belong to the element; decoding the element consumes those tokens too. */
module Xml {
  import opened Errors

  datatype QName = QName(space: string, local: string)

  /** The decoded fields the client reads: the advertised SASL mechanisms of a
      `<features>`, the condition element of a SASL `<failure>` (its `Any` field),
      and the JID of a bind result. Everything else an element holds is left out. */
  datatype Fields = Fields(mechanisms: seq<string>, condition: QName, jid: string)

  /** The rest of an element after its start tag: decodable into fields, or not
      (bad markup, a transport error inside it). */
  datatype Body = Decoded(fields: Fields) | Undecodable(reason: string)

  /** A start tag, what its element decodes to, and `extent`: the number of tokens
      after the start tag up to and including its matching end tag. */
  datatype StartElement = StartElement(name: QName, body: Body, extent: nat)

  datatype Token = Start(element: StartElement) | End(name: QName) | CharData(text: string)

  /** Everything the server sends: its tokens, then the error the reader reports
      once they are used up (`EOF`, or a syntax or transport error). */
  datatype Stream = Stream(tokens: seq<Token>, tail: string)

  /** The first start token at or after `from`, or `|ts|` when there is none. */
  function FindStart(ts: seq<Token>, from: nat): (k: nat)
    requires from <= |ts|
    ensures from <= k <= |ts|
    ensures k < |ts| ==> ts[k].Start?
    ensures forall j | from <= j < k :: !ts[j].Start?
    decreases |ts| - from
  {
    if from == |ts| then from
    else if ts[from].Start? then from
    else FindStart(ts, from + 1)
  }

  /** The first start token at or after `from` is at `q`. */
  predicate FirstStart(ts: seq<Token>, from: nat, q: nat)
  {
    from <= q < |ts| && ts[q].Start? && forall j | from <= j < q :: !ts[j].Start?
  }

  /** `FirstStart` describes what `FindStart` finds. */
  lemma FindStartIsFirst(ts: seq<Token>, from: nat, q: nat)
    requires FirstStart(ts, from, q)
    ensures FindStart(ts, from) == q
  {
  }

  /** Where the element whose start tag is at `k` ends: just past its end tag, or
      the end of the stream when the stream stops inside it. */
  function ElementEnd(s: Stream, k: nat): (e: nat)
    requires k < |s.tokens| && s.tokens[k].Start?
    ensures k < e <= |s.tokens|
    ensures e < |s.tokens| ==> e == k + 1 + s.tokens[k].element.extent
  {
    var e := k + 1 + s.tokens[k].element.extent;
    if e <= |s.tokens| then e else |s.tokens|
  }

  /** The check of a struct's `XMLName` tag against the start element met, with
      `encoding/xml`'s messages: the local name first, then the name space; an
      empty part of the tag accepts anything. */
  function NameCheck(want: QName, have: QName): (r: Option<string>)
    ensures want.local != "" && want.space != "" ==> (r.None? <==> have == want)
  {
    if want.local != "" && want.local != have.local then
      Some("expected element type <" + want.local + "> but have <" + have.local + ">")
    else if want.space != "" && want.space != have.space then
      Some("expected element <" + want.local + "> in name space " + want.space + " but have "
        + (if have.space == "" then "no name space" else have.space))
    else None
  }

  /** Decoding the element whose start tag is at `k` into a value whose type is
      tagged `want`, the start tag already read.  A tag mismatch is reported before
      anything else is read, so the element's content stays in the stream;
      otherwise the whole element is consumed. */
  function Unmarshal(s: Stream, k: nat, want: QName): (r: Step<Fields>)
    requires k < |s.tokens| && s.tokens[k].Start?
    ensures k < r.next <= |s.tokens|
    ensures NameCheck(want, s.tokens[k].element.name).Some? ==>
      r == Step(Err(Failed(NameCheck(want, s.tokens[k].element.name).value)), k + 1)
    ensures NameCheck(want, s.tokens[k].element.name).None? ==> r.next == ElementEnd(s, k)
    ensures r.result.Ok? <==>
      NameCheck(want, s.tokens[k].element.name).None? && s.tokens[k].element.body.Decoded?
    ensures r.result.Ok? ==> s.tokens[k].element.body == Decoded(r.result.value)
  {
    var se := s.tokens[k].element;
    match NameCheck(want, se.name)
    case Some(m) => Step(Err(Failed(m)), k + 1)
    case None =>
      match se.body
      case Undecodable(reason) => Step(Err(Failed(reason)), ElementEnd(s, k))
      case Decoded(f) => Step(Ok(f), ElementEnd(s, k))
  }

  /** What `DecodeElement(v, nil)` does with a value whose type is tagged `want`:
      skip to the next start element and decode it.  Errors here are ordinary
      errors. */
  function ReadElement(s: Stream, pos: nat, want: QName): (r: Step<Fields>)
    requires pos <= |s.tokens|
    ensures pos <= r.next <= |s.tokens|
    ensures FindStart(s.tokens, pos) == |s.tokens| ==> r == Step(Err(Failed(s.tail)), |s.tokens|)
    ensures FindStart(s.tokens, pos) < |s.tokens| ==> r.next > FindStart(s.tokens, pos)
    ensures r.result.Ok? ==>
      var k := FindStart(s.tokens, pos);
      && k < |s.tokens|
      && (want.local != "" && want.space != "" ==> s.tokens[k].element.name == want)
      && s.tokens[k].element.body == Decoded(r.result.value)
      && r.next == ElementEnd(s, k)
  {
    var k := FindStart(s.tokens, pos);
    if k == |s.tokens| then Step(Err(Failed(s.tail)), k)
    else Unmarshal(s, k, want)
  }

  /** Go's `xml.Decoder`, reading from a connection whose content is `stream`. */
  class Decoder {
    const stream: Stream
    var pos: nat

    ghost predicate Valid()
      reads this
    {
      pos <= |stream.tokens|
    }

    constructor (s: Stream)
      ensures Valid() && stream == s && pos == 0
    {
      stream := s;
      pos := 0;
    }

    /** `Token`: the next token, or the reader's error once the tokens are used up. */
    method Token() returns (r: Result<Token>)
      requires Valid()
      modifies this
      ensures Valid()
      ensures old(pos) < |stream.tokens| ==> r == Ok(stream.tokens[old(pos)]) && pos == old(pos) + 1
      ensures old(pos) == |stream.tokens| ==> r == Err(Failed(stream.tail)) && pos == old(pos)
    {
      if pos == |stream.tokens| {
        r := Err(Failed(stream.tail));
      } else {
        r := Ok(stream.tokens[pos]);
        pos := pos + 1;
      }
    }

    /** `DecodeElement(v, &start)`: decode the element whose start tag was just
        read into a value whose type is tagged `want`. */
    method DecodeStarted(start: StartElement, want: QName) returns (r: Result<Fields>)
      requires Valid() && 0 < pos && stream.tokens[pos - 1] == Start(start)
      modifies this
      ensures Valid()
      ensures Step(r, pos) == Unmarshal(stream, old(pos) - 1, want)
    {
      var check := NameCheck(want, start.name);
      if check.Some? {
        return Err(Failed(check.value));
      }
      // Read the rest of the element, up to its end tag or the end of the stream.
      ghost var last := pos + start.extent;
      var n := start.extent;
      while n > 0 && pos < |stream.tokens|
        invariant Valid() && pos + n == last
        decreases n
      {
        var _ := Token();
        n := n - 1;
      }
      match start.body
      case Undecodable(reason) =>
        return Err(Failed(reason));
      case Decoded(f) =>
        return Ok(f);
    }

    /** `DecodeElement(v, nil)` for a value whose type is tagged `want`. */
    method DecodeElement(want: QName) returns (r: Result<Fields>)
      requires Valid()
      modifies this
      ensures Valid()
      ensures Step(r, pos) == ReadElement(stream, old(pos), want)
    {
      var from := pos;
      while true
        invariant Valid() && from <= pos
        invariant FindStart(stream.tokens, from) == FindStart(stream.tokens, pos)
        decreases |stream.tokens| - pos
      {
        var t := Token();
        if t.Err? {
          return Err(t.error);
        }
        if t.value.Start? {
          r := DecodeStarted(t.value.element, want);
          return;
        }
      }
    }
  }
}
