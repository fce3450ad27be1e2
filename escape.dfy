/** `xmlEscape` (xmpp.go:453-472): the five predefined entities of section 4.6 of
    XML 1.0, applied byte by byte to a domain name before it is put in an attribute. */
module XmlEscape {

  /** The `xmlSpecial` table. */
  const Special: map<char, string> := map[
    '<' := "&lt;",
    '>' := "&gt;",
    '"' := "&quot;",
    '\'' := "&apos;",
    '&' := "&amp;"
  ]

  predicate IsSpecial(c: char)
  {
    c == '<' || c == '>' || c == '"' || c == '\'' || c == '&'
  }

  /** What one byte becomes: its entity when the table has one, itself otherwise. */
  function Image(c: char): (r: string)
    ensures IsSpecial(c) <==> c in Special
    ensures IsSpecial(c) ==> r == Special[c] && |r| > 1 && r[0] == '&' && r[|r| - 1] == ';'
    ensures !IsSpecial(c) ==> r == [c]
  {
    if c in Special then Special[c] else [c]
  }

  /** The value `xmlEscape(s)` returns, defined byte by byte. */
  function Escaped(s: string): string
  {
    if s == [] then [] else Image(s[0]) + Escaped(s[1..])
  }

  /** `xmlEscape`: the loop over the bytes of `s`, appending to a buffer. */
  method Escape(s: string) returns (r: string)
    ensures r == Escaped(s)
  {
    var b := "";
    for i := 0 to |s|
      invariant b == Escaped(s[..i])
    {
      var c := s[i];
      if c in Special {
        b := b + Special[c];
      } else {
        b := b + [c];
      }
      EscapedAppend(s[..i], [c]);
      assert s[..i + 1] == s[..i] + [c];
    }
    assert s[..|s|] == s;
    r := b;
  }

  /** No raw `<`, `>`, `"` or `'` survives escaping (an `&` survives only as the
      start of an entity). */
  predicate NoRawMarkup(t: string)
  {
    forall i | 0 <= i < |t| :: t[i] != '<' && t[i] != '>' && t[i] != '"' && t[i] != '\''
  }

  lemma {:induction false} EscapedHasNoRawMarkup(s: string)
    ensures NoRawMarkup(Escaped(s))
  {
    if s != [] {
      EscapedHasNoRawMarkup(s[1..]);
      var head := Image(s[0]);
      assert NoRawMarkup(head);
      assert Escaped(s) == head + Escaped(s[1..]);
    }
  }

  /** Escaping distributes over concatenation. */
  lemma {:induction false} EscapedAppend(s: string, t: string)
    ensures Escaped(s + t) == Escaped(s) + Escaped(t)
  {
    if s == [] {
      assert s + t == t;
    } else {
      assert (s + t)[0] == s[0];
      assert (s + t)[1..] == s[1..] + t;
      EscapedAppend(s[1..], t);
    }
  }

  /** A string with none of the five special bytes is left unchanged, and only such a string is. */
  lemma {:induction false} EscapedIdentity(s: string)
    ensures Escaped(s) == s <==> forall i | 0 <= i < |s| :: !IsSpecial(s[i])
  {
    if s != [] {
      EscapedIdentity(s[1..]);
      EscapedLength(s[1..]);
      if IsSpecial(s[0]) {
        assert Escaped(s)[0] == '&';
        if s[0] == '&' {
          assert |Escaped(s)| > |s|;
        }
      } else {
        assert Escaped(s) == [s[0]] + Escaped(s[1..]);
        if Escaped(s) == s {
          assert Escaped(s[1..]) == s[1..];
        }
        forall i | 1 <= i < |s|
          ensures s[i] == s[1..][i - 1]
        {
        }
      }
    }
  }

  /** The escaped text is never shorter; each special byte adds at least three bytes. */
  lemma {:induction false} EscapedLength(s: string)
    ensures |Escaped(s)| >= |s|
  {
    if s != [] {
      EscapedLength(s[1..]);
    }
  }

  /** Reading entities back: the partner of `Escaped`, reversing each of the five
      entities and copying every other byte. */
  function Unescaped(t: string): string
    decreases |t|
  {
    if t == [] then []
    else if "&lt;" <= t then "<" + Unescaped(t[4..])
    else if "&gt;" <= t then ">" + Unescaped(t[4..])
    else if "&quot;" <= t then "\"" + Unescaped(t[6..])
    else if "&apos;" <= t then "'" + Unescaped(t[6..])
    else if "&amp;" <= t then "&" + Unescaped(t[5..])
    else [t[0]] + Unescaped(t[1..])
  }

  lemma UnescapedImage(c: char, rest: string)
    ensures Unescaped(Image(c) + rest) == [c] + Unescaped(rest)
  {
    var t := Image(c) + rest;
    if c == '<' {
      assert t[..4] == "&lt;" && t[4..] == rest;
    } else if c == '>' {
      assert t[..4] == "&gt;" && t[4..] == rest && t[1] == 'g';
    } else if c == '"' {
      assert t[..6] == "&quot;" && t[6..] == rest && t[1] == 'q';
    } else if c == '\'' {
      assert t[..6] == "&apos;" && t[6..] == rest && t[1] == 'a';
    } else if c == '&' {
      assert t[..5] == "&amp;" && t[5..] == rest && t[1] == 'a' && t[2] == 'm';
    } else {
      assert t[0] == c && t[1..] == rest;
    }
  }

  /** Escaping loses nothing: reading the entities back gives the original text. */
  lemma {:induction false} UnescapedEscaped(s: string)
    ensures Unescaped(Escaped(s)) == s
  {
    if s != [] {
      UnescapedImage(s[0], Escaped(s[1..]));
      UnescapedEscaped(s[1..]);
      assert [s[0]] + s[1..] == s;
    }
  }
}
