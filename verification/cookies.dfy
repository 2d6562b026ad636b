/**
 * The loose reading of the configured cookie string (`name=value; name=value`, the Cookie header
 * list of section 4.2.1 of RFC 6265) into the cookies installed in the browser for grok.com.
 */
module Cookies {
  import opened Wrappers
  import opened Text

  datatype Cookie = Cookie(name: string, value: string, domain: string, path: string, httpOnly: bool, secure: bool)

  const NoCookieConfigured := "No cookie configured"
  const NoValidCookies := "No valid cookies"

  /**
   * `s.split(/;\s*|\s+/)`: a `;` and the white space after it, or a run of white space, separates
   * two entries; the entries themselves hold neither.
   */
  function SplitEntries(s: string): (entries: seq<string>)
    ensures |entries| >= 1
    ensures forall e :: e in entries ==> NoSpace(e) && ';' !in e
    decreases |s|
  {
    if s == [] then [""]
    else if s[0] == ';' || IsSpace(s[0]) then
      [""] + SplitEntries(TrimStart(s[1..]))
    else
      var rest := SplitEntries(s[1..]);
      assert rest[0] in rest;
      [[s[0]] + rest[0]] + rest[1..]
  }

  /** Text without separators in front of `t` extends the first entry of `t`. */
  lemma {:induction false} SplitEntriesFree(a: string, t: string)
    requires NoSpace(a) && ';' !in a
    ensures SplitEntries(a + t) == [a + SplitEntries(t)[0]] + SplitEntries(t)[1..]
    decreases |a|
  {
    if a == [] {
      assert a + t == t;
      var st := SplitEntries(t);
      assert [st[0]] + st[1..] == st;
      assert a + st[0] == st[0];
    } else {
      assert a[0] != ';' && !IsSpace(a[0]);
      assert NoSpace(a[1..]) && ';' !in a[1..] by {
        assert forall k :: 0 <= k < |a[1..]| ==> a[1..][k] == a[k + 1];
      }
      SplitEntriesFree(a[1..], t);
      assert (a + t)[1..] == a[1..] + t;
      assert (a + t)[0] == a[0];
      assert [a[0]] + (a[1..] + SplitEntries(t)[0]) == a + SplitEntries(t)[0];
    }
  }

  /** One entry: the name before the first `=`, the value after it (later `=` are kept); empty parts drop it. */
  function ParseEntry(entry: string): (c: Option<Cookie>)
    ensures c.Some? ==> c.value.domain == "grok.com" && c.value.path == "/" && c.value.httpOnly && c.value.secure
  {
    var parts := Split(entry, '=');
    var name := parts[0];
    var value := Join(parts[1..], "=");
    if name == "" || value == "" then None
    else Some(Cookie(Trim(name), Trim(value), "grok.com", "/", true, true))
  }

  /** A kept entry's name is the text before its first `=` and its value all the text after it, both trimmed. */
  lemma EntryFields(entry: string)
    ensures var i := IndexOf(entry, '=');
            ParseEntry(entry).Some? <==> 0 < i < |entry| - 1
    ensures var i := IndexOf(entry, '=');
            ParseEntry(entry).Some? ==>
              ParseEntry(entry).value.name == Trim(entry[..i]) && ParseEntry(entry).value.value == Trim(entry[i + 1..])
  {
    EntryParts(entry);
  }

  lemma EntryParts(entry: string)
    ensures var i := IndexOf(entry, '=');
            && Split(entry, '=')[0] == entry[..i]
            && Join(Split(entry, '=')[1..], "=") == if i < |entry| then entry[i + 1..] else ""
  {
    SplitHead(entry, '=');
    SplitTail(entry, '=');
  }

  /** The kept cookies, in input order. */
  function KeepParsed(entries: seq<string>): seq<Cookie> {
    if entries == [] then []
    else
      match ParseEntry(entries[0])
      case Some(c) => [c] + KeepParsed(entries[1..])
      case None => KeepParsed(entries[1..])
  }

  function ParseCookieString(s: string): seq<Cookie> {
    KeepParsed(SplitEntries(s))
  }

  /** The guard and the parse: a missing or empty cookie string, or one that yields nothing, is an error. */
  function SetupCookies(grokCookie: Option<string>): (r: Result<seq<Cookie>, string>)
    ensures grokCookie.None? || grokCookie.value == "" ==> r == Err(NoCookieConfigured)
    ensures r.Ok? ==> r.value != [] && r.value == ParseCookieString(grokCookie.value)
    ensures r.Err? && grokCookie.Some? && grokCookie.value != "" ==> r == Err(NoValidCookies) && ParseCookieString(grokCookie.value) == []
  {
    if grokCookie.None? || grokCookie.value == "" then Err(NoCookieConfigured)
    else
      var cookies := ParseCookieString(grokCookie.value);
      if |cookies| == 0 then Err(NoValidCookies) else Ok(cookies)
  }

  // ---------------------------------------------------------------------------------------------
  // Round trip with the canonical serialization

  /** A name or value that the parser keeps intact. */
  predicate Token(t: string) {
    t != "" && NoSpace(t) && ';' !in t
  }

  predicate WellFormed(c: Cookie) {
    Token(c.name) && '=' !in c.name && Token(c.value)
    && c.domain == "grok.com" && c.path == "/" && c.httpOnly && c.secure
  }

  function Pair(c: Cookie): string {
    c.name + "=" + c.value
  }

  /** `name=value` pairs joined by `"; "`, as a browser sends them. */
  function Serialize(cookies: seq<Cookie>): string {
    if cookies == [] then ""
    else if |cookies| == 1 then Pair(cookies[0])
    else Pair(cookies[0]) + "; " + Serialize(cookies[1..])
  }

  lemma PairParses(c: Cookie)
    requires WellFormed(c)
    ensures ParseEntry(Pair(c)) == Some(c)
  {
    SplitPair(c.name, c.value);
    assert Split(Pair(c), '=')[1..] == Split(c.value, '=');
    JoinSplit(c.value, '=');
    TrimNoSpace(c.name);
    TrimNoSpace(c.value);
  }

  lemma SplitPair(name: string, value: string)
    requires '=' !in name
    ensures Split(name + "=" + value, '=') == [name] + Split(value, '=')
  {
    var tail := "=" + value;
    assert name + "=" + value == name + tail;
    SplitFree(name, tail, '=');
    assert tail[0] == '=' && tail[1..] == value;
    assert Split(tail, '=') == [""] + Split(value, '=');
    assert name + "" == name;
  }

  lemma PairIsEntry(c: Cookie)
    requires WellFormed(c)
    ensures NoSpace(Pair(c)) && ';' !in Pair(c)
    ensures !IsSpace(Pair(c)[0]) && Pair(c)[0] != ';'
  {
    assert Pair(c) == c.name + ("=" + c.value);
    assert Pair(c)[0] == c.name[0];
  }

  /** A serialization starts with the first cookie's name, so neither with a separator nor with space. */
  lemma SerializedStart(cookies: seq<Cookie>)
    requires cookies != [] && WellFormed(cookies[0])
    ensures Serialize(cookies) != [] && !IsSpace(Serialize(cookies)[0])
  {
    PairIsEntry(cookies[0]);
    if |cookies| > 1 {
      assert Serialize(cookies) == Pair(cookies[0]) + ("; " + Serialize(cookies[1..]));
    }
  }

  /** The `"; "` separator closes an entry and the space after it is skipped. */
  lemma SeparatorStep(rest: string)
    requires rest != [] && !IsSpace(rest[0])
    ensures SplitEntries("; " + rest) == [""] + SplitEntries(rest)
  {
    var line := "; " + rest;
    var spaced := " " + rest;
    assert line[0] == ';' && line[1..] == spaced;
    assert SplitEntries(line) == [""] + SplitEntries(TrimStart(spaced));
    assert spaced[0] == ' ' && spaced[1..] == rest;
    assert TrimStart(spaced) == TrimStart(rest);
  }

  lemma {:induction false} SplitSerialized(cookies: seq<Cookie>)
    requires cookies != []
    requires forall c :: c in cookies ==> WellFormed(c)
    ensures |SplitEntries(Serialize(cookies))| == |cookies|
    ensures forall k :: 0 <= k < |cookies| ==> SplitEntries(Serialize(cookies))[k] == Pair(cookies[k])
  {
    var p := Pair(cookies[0]);
    PairIsEntry(cookies[0]);
    assert p + "" == p;
    if |cookies| == 1 {
      SplitEntriesFree(p, "");
      assert SplitEntries(p) == [p + ""];
    } else {
      var rest := Serialize(cookies[1..]);
      assert cookies[1..][0] == cookies[1];
      SplitSerialized(cookies[1..]);
      SerializedStart(cookies[1..]);
      SeparatorStep(rest);
      assert Serialize(cookies) == p + ("; " + rest);
      SplitEntriesFree(p, "; " + rest);
      assert SplitEntries(Serialize(cookies)) == [p] + SplitEntries(rest);
    }
  }

  lemma {:induction false} KeepAllParsed(entries: seq<string>, cookies: seq<Cookie>)
    requires |entries| == |cookies|
    requires forall k :: 0 <= k < |cookies| ==> ParseEntry(entries[k]) == Some(cookies[k])
    ensures KeepParsed(entries) == cookies
  {
    if entries != [] {
      KeepAllParsed(entries[1..], cookies[1..]);
    }
  }

  /** Parsing what a browser would send for well-formed cookies gives them back, in order. */
  lemma ParseSerialize(cookies: seq<Cookie>)
    requires cookies != []
    requires forall c :: c in cookies ==> WellFormed(c)
    ensures ParseCookieString(Serialize(cookies)) == cookies
    ensures SetupCookies(Some(Serialize(cookies))) == Ok(cookies)
  {
    SplitSerialized(cookies);
    forall k | 0 <= k < |cookies| ensures ParseEntry(SplitEntries(Serialize(cookies))[k]) == Some(cookies[k]) {
      PairParses(cookies[k]);
    }
    KeepAllParsed(SplitEntries(Serialize(cookies)), cookies);
  }
}
