/** Splitting the JID and choosing the host name (xmpp.go:58-70, 107-109, 139-144). */
module Addressing {
  import opened Errors

  /** `strings.Index` for a one-byte separator: the first position of `c`, or -1. */
  function IndexOf(s: string, c: char): (r: int)
    ensures -1 <= r < |s|
    ensures r == -1 <==> c !in s
    ensures r >= 0 ==> s[r] == c && c !in s[..r]
  {
    if s == [] then -1
    else if s[0] == c then 0
    else
      var k := IndexOf(s[1..], c);
      assert k >= 0 ==> s[..k + 1] == [s[0]] + s[1..][..k];
      if k < 0 then -1 else k + 1
  }

  /** `strings.LastIndex` for a one-byte separator: the last position of `c`, or -1. */
  function LastIndex(s: string, c: char): (r: int)
    ensures -1 <= r < |s|
    ensures r >= 0 ==> s[r] == c
    ensures forall j | r < j < |s| :: s[j] != c
  {
    if s == [] then -1
    else if s[|s| - 1] == c then |s| - 1
    else LastIndex(s[..|s| - 1], c)
  }

  /** `strings.SplitN(s, sep, 2)`: one part when `sep` is absent, otherwise the
      text before its first occurrence and everything after it. */
  function SplitN2(s: string, sep: char): (parts: seq<string>)
    ensures |parts| == 1 || |parts| == 2
    ensures |parts| == 1 <==> sep !in s
    ensures |parts| == 1 ==> parts[0] == s
    ensures |parts| == 2 ==> parts[0] + [sep] + parts[1] == s && sep !in parts[0]
  {
    var i := IndexOf(s, sep);
    if i < 0 then [s] else [s[..i], s[i + 1..]]
  }

  /** A JID split at its first `@` into user and domain (xmpp.go:139-144). */
  function SplitJid(jid: string): (r: Result<(string, string)>)
    ensures r.Err? <==> '@' !in jid
    ensures r.Err? ==> r.error == Failed("xmpp: invalid username (want user@domain): " + jid)
    ensures r.Ok? ==> r.value.0 + "@" + r.value.1 == jid && '@' !in r.value.0
  {
    var a := SplitN2(jid, '@');
    if |a| != 2 then Err(Failed("xmpp: invalid username (want user@domain): " + jid))
    else Ok((a[0], a[1]))
  }

  /** The split is the only one with an `@`-free user part: rejoining and splitting
      again gives the same pair, so the domain may itself contain `@`. */
  lemma SplitJidJoin(user: string, domain: string)
    requires '@' !in user
    ensures SplitJid(user + "@" + domain) == Ok((user, domain))
  {
    var jid := user + "@" + domain;
    assert jid[|user|] == '@';
    var r := SplitJid(jid);
    var u, d := r.value.0, r.value.1;
    assert u == jid[..|u|] == user;
    assert d == jid[|u| + 1..] == domain;
  }

  /** The ASCII white space `strings.TrimSpace` removes. */
  predicate IsSpace(c: char)
  {
    c == ' ' || c == '\t' || c == '\n' || c == '\r' || c == '\U{B}' || c == '\U{C}'
  }

  /** `strings.TrimSpace(host) == ""`. */
  predicate IsBlank(host: string)
  {
    forall i | 0 <= i < |host| :: IsSpace(host[i])
  }

  const DefaultPort: string := "5222"

  /** The host after defaulting (xmpp.go:61-70): a blank host is replaced by the
      domain of the JID when it has one, and a host with no `:` gets port 5222. */
  function DefaultHost(host: string, user: string): (r: string)
    ensures ':' in r
    ensures !IsBlank(host) && ':' in host ==> r == host
    ensures !IsBlank(host) && ':' !in host ==> r == host + ":" + DefaultPort
    ensures IsBlank(host) && SplitJid(user).Err? ==> r == host + ":" + DefaultPort
    ensures IsBlank(host) && SplitJid(user).Ok? ==>
      var domain := SplitJid(user).value.1;
      r == if ':' in domain then domain else domain + ":" + DefaultPort
  {
    var h := if IsBlank(host) then
        var a := SplitN2(user, '@');
        if |a| == 2 then a[1] else host
      else host;
    var a := SplitN2(h, ':');
    assert ':' in h + ":" + DefaultPort by {
      assert (h + ":" + DefaultPort)[|h|] == ':';
    }
    if |a| == 1 then h + ":" + DefaultPort else h
  }

  /** The name handed to hostname verification (xmpp.go:107-109): the text from the
      last `:` on is cut off when that `:` is not the first byte. */
  function StripPort(host: string): (r: string)
    ensures r <= host
    ensures LastIndex(host, ':') > 0 ==> |r| == LastIndex(host, ':') && forall j | |r| < j < |host| :: host[j] != ':'
    ensures LastIndex(host, ':') <= 0 ==> r == host
  {
    var i := LastIndex(host, ':');
    if i > 0 then host[..i] else host
  }

  /** Stripping undoes adding a port to a non-empty host name without `:`. */
  lemma StripPortJoin(name: string, port: string)
    requires name != [] && ':' !in port
    ensures StripPort(name + ":" + port) == name
  {
    var h := name + ":" + port;
    var i := LastIndex(h, ':');
    assert h[|name|] == ':';
    assert h[..|name|] == name;
  }

  /** With a blank host, the name verified is the domain of the JID (when it names no port). */
  lemma VerifiedNameIsDomain(host: string, user: string)
    requires IsBlank(host) && SplitJid(user).Ok?
    requires SplitJid(user).value.1 != [] && ':' !in SplitJid(user).value.1
    ensures StripPort(DefaultHost(host, user)) == SplitJid(user).value.1
  {
    StripPortJoin(SplitJid(user).value.1, DefaultPort);
  }

  /** The address `net.Dial` is given, as written (xmpp.go:59, 71-81): the host
      exactly as the caller passed it, unless a proxy URL supplies its own host.
      `proxyHost` is the host of the parsed `HTTP_PROXY` setting, when there is one. */
  function DialAddressAsWritten(host: string, proxyHost: Option<string>): (r: string)
    ensures proxyHost.None? ==> r == host
  {
    match proxyHost
    case Some(p) => p
    case None => host
  }

  /** The defaulting at xmpp.go:61-70 never reaches the dial: an empty host with
      JID `a@b` dials the empty address, not `b:5222`. */
  lemma DialAddressAsWrittenSkipsDefault()
    ensures DialAddressAsWritten("", None) == ""
    ensures DefaultHost("", "a@b") == "b:5222"
  {
    assert SplitJid("a@b") == Ok(("a", "b")) by {
      SplitJidJoin("a", "b");
      assert "a" + "@" + "b" == "a@b";
    }
  }

  /** The address as evidently intended: the defaulted host, which always contains a `:`. */
  function DialAddress(host: string, user: string, proxyHost: Option<string>): (r: string)
    ensures proxyHost.None? ==> ':' in r && r == DefaultHost(host, user)
    ensures proxyHost.Some? ==> r == proxyHost.value
  {
    match proxyHost
    case Some(p) => p
    case None => DefaultHost(host, user)
  }
}
