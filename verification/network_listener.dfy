/**
 * Routing of the page's network responses to registered handlers, and the glob patterns that
 * select them. A handler's callback is identified by an id; whether it throws is an input.
 */
module NetworkListener {

  datatype Handler = Handler(urlPattern: string, id: nat)

  // ---------------------------------------------------------------------------------------------
  // Pattern matching

  /** `pattern.replace(c, r)` for every occurrence of the character `c`. */
  function ReplaceAll(s: string, c: char, r: string): string {
    if s == [] then "" else (if s[0] == c then r else [s[0]]) + ReplaceAll(s[1..], c, r)
  }

  lemma {:induction false} ReplaceAllAppend(a: string, b: string, c: char, r: string)
    ensures ReplaceAll(a + b, c, r) == ReplaceAll(a, c, r) + ReplaceAll(b, c, r)
  {
    if a == [] {
      assert a + b == b;
    } else {
      assert (a + b)[1..] == a[1..] + b;
      ReplaceAllAppend(a[1..], b, c, r);
    }
  }

  lemma {:induction false} ReplaceAllAbsent(s: string, c: char, r: string)
    requires c !in s
    ensures ReplaceAll(s, c, r) == s
  {
    if s != [] {
      ReplaceAllAbsent(s[1..], c, r);
    }
  }

  /** The regular-expression text one pattern character becomes. */
  function PieceFor(c: char): string {
    if c == '/' then "\\/" else if c == '*' then "[^/]*" else if c == '?' then "." else [c]
  }

  function Translate(p: string): string {
    if p == [] then "" else PieceFor(p[0]) + Translate(p[1..])
  }

  /** The three successive global replacements `matchUrlPattern` applies, in order. */
  function Escaped(pattern: string): string {
    ReplaceAll(ReplaceAll(ReplaceAll(pattern, '/', "\\/"), '*', "[^/]*"), '?', ".")
  }

  /** The regular expression `matchUrlPattern` builds. */
  function RegexSource(pattern: string): string {
    "^" + Escaped(pattern) + "$"
  }

  /** No replacement introduces a character a later one looks for, so each character is translated on its own. */
  lemma {:induction false} RegexSourceTranslates(pattern: string)
    ensures RegexSource(pattern) == "^" + Translate(pattern) + "$"
  {
    Chain(pattern);
  }

  lemma EscapedAppend(a: string, b: string)
    ensures Escaped(a + b) == Escaped(a) + Escaped(b)
  {
    var a1, b1 := ReplaceAll(a, '/', "\\/"), ReplaceAll(b, '/', "\\/");
    ReplaceAllAppend(a, b, '/', "\\/");
    var a2, b2 := ReplaceAll(a1, '*', "[^/]*"), ReplaceAll(b1, '*', "[^/]*");
    ReplaceAllAppend(a1, b1, '*', "[^/]*");
    ReplaceAllAppend(a2, b2, '?', ".");
  }

  lemma EscapedChar(c: char)
    ensures Escaped([c]) == PieceFor(c)
  {
    assert [c][0] == c && [c][1..] == [];
    var a0 := ReplaceAll([c], '/', "\\/");
    assert a0 == (if c == '/' then "\\/" else [c]) + ReplaceAll([], '/', "\\/");
    var b0 := ReplaceAll(a0, '*', "[^/]*");
    if c == '/' {
      ReplaceAllAbsent(a0, '*', "[^/]*");
      ReplaceAllAbsent(b0, '?', ".");
    } else if c == '*' {
      assert b0 == "[^/]*" + ReplaceAll([], '*', "[^/]*");
      ReplaceAllAbsent(b0, '?', ".");
    } else if c == '?' {
      ReplaceAllAbsent(a0, '*', "[^/]*");
      assert ReplaceAll(b0, '?', ".") == "." + ReplaceAll([], '?', ".");
    } else {
      ReplaceAllAbsent(a0, '*', "[^/]*");
      ReplaceAllAbsent(b0, '?', ".");
    }
  }

  lemma {:induction false} Chain(p: string)
    ensures Escaped(p) == Translate(p)
  {
    if p != [] {
      assert p == [p[0]] + p[1..];
      EscapedAppend([p[0]], p[1..]);
      EscapedChar(p[0]);
      Chain(p[1..]);
    }
  }

  /** What one translated piece matches: itself, a run of non-`/` characters, or one character. */
  datatype Atom = Lit(c: char) | NonSlashRun | AnyChar

  function AtomFor(c: char): Atom {
    if c == '*' then NonSlashRun else if c == '?' then AnyChar else Lit(c)
  }

  function Compile(p: string): (atoms: seq<Atom>)
    ensures |atoms| == |p| && forall k :: 0 <= k < |p| ==> atoms[k] == AtomFor(p[k])
  {
    if p == [] then [] else [AtomFor(p[0])] + Compile(p[1..])
  }

  /** `.` in a regular expression without the `s` flag does not match a line terminator. */
  predicate LineTerminator(c: char) {
    c == '\n' || c == '\r' || c == '\U{2028}' || c == '\U{2029}'
  }

  /** Whether the whole of `s` matches the atoms (the expression is anchored at both ends). */
  function MatchAtoms(atoms: seq<Atom>, s: string): bool
    decreases |atoms|, |s|
  {
    if atoms == [] then s == []
    else
      match atoms[0]
      case Lit(c) => s != [] && s[0] == c && MatchAtoms(atoms[1..], s[1..])
      case AnyChar => s != [] && !LineTerminator(s[0]) && MatchAtoms(atoms[1..], s[1..])
      case NonSlashRun =>
        MatchAtoms(atoms[1..], s) || (s != [] && s[0] != '/' && MatchAtoms(atoms, s[1..]))
  }

  /** `matchUrlPattern` applied to the URL's pathname. */
  function MatchUrlPattern(pattern: string, pathname: string): bool {
    MatchAtoms(Compile(pattern), pathname)
  }

  /** Whether one pattern character accepts one pathname character, for patterns without `*`. */
  predicate Accepts(p: char, c: char) {
    if p == '?' then !LineTerminator(c) else c == p
  }

  /** Without `*`, a match is a character-by-character agreement over equal lengths. */
  lemma {:induction false} MatchWithoutStar(pattern: string, pathname: string)
    requires '*' !in pattern
    ensures MatchUrlPattern(pattern, pathname) <==>
              |pathname| == |pattern| && forall k :: 0 <= k < |pattern| ==> Accepts(pattern[k], pathname[k])
  {
    if pattern != [] && pathname != [] {
      assert Compile(pattern)[1..] == Compile(pattern[1..]);
      MatchWithoutStar(pattern[1..], pathname[1..]);
      if |pathname| == |pattern| && forall k :: 0 <= k < |pattern| ==> Accepts(pattern[k], pathname[k]) {
        forall k | 0 <= k < |pattern[1..]| ensures Accepts(pattern[1..][k], pathname[1..][k]) {
          assert Accepts(pattern[k + 1], pathname[k + 1]);
        }
      }
      if MatchUrlPattern(pattern, pathname) {
        forall k | 0 <= k < |pattern| ensures Accepts(pattern[k], pathname[k]) {
          if k > 0 {
            assert pattern[1..][k - 1] == pattern[k];
            assert pathname[1..][k - 1] == pathname[k];
          }
        }
      }
    } else if pattern != [] {
      assert Compile(pattern)[0] == AtomFor(pattern[0]);
    }
  }

  /** A pattern of plain characters matches exactly itself. */
  lemma LiteralMatch(pattern: string, pathname: string)
    requires '*' !in pattern && '?' !in pattern
    ensures MatchUrlPattern(pattern, pathname) <==> pathname == pattern
  {
    MatchWithoutStar(pattern, pathname);
    if |pathname| == |pattern| && forall k :: 0 <= k < |pattern| ==> Accepts(pattern[k], pathname[k]) {
      forall k | 0 <= k < |pattern| ensures pathname[k] == pattern[k] {
        assert pattern[k] != '?';
      }
    }
  }

  /** `*` matches any run of characters without `/`, the empty one included. */
  lemma {:induction false} StarRun(atoms: seq<Atom>, s: string)
    requires atoms == [NonSlashRun]
    ensures MatchAtoms(atoms, s) <==> '/' !in s
  {
    if s != [] {
      StarRun(atoms, s[1..]);
      assert '/' !in s <==> s[0] != '/' && '/' !in s[1..] by {
        assert s == [s[0]] + s[1..];
      }
    }
  }

  lemma StarMatchesSegment(pathname: string)
    ensures MatchUrlPattern("*", pathname) <==> '/' !in pathname
  {
    StarRun(Compile("*"), pathname);
  }

  /** A split of `s` whose two parts match `a` and `b` gives a match of `a + b`. */
  lemma {:induction false} ConcatIntro(a: seq<Atom>, b: seq<Atom>, s: string, i: nat)
    requires i <= |s| && MatchAtoms(a, s[..i]) && MatchAtoms(b, s[i..])
    ensures MatchAtoms(a + b, s)
    decreases |a|, |s|
  {
    if a == [] {
      assert a + b == b && s[i..] == s;
    } else {
      assert (a + b)[0] == a[0] && (a + b)[1..] == a[1..] + b;
      match a[0]
      case NonSlashRun =>
        if MatchAtoms(a[1..], s[..i]) {
          ConcatIntro(a[1..], b, s, i);
        } else {
          assert s[..i][1..] == s[1..][..i - 1] && s[i..] == s[1..][i - 1..];
          ConcatIntro(a, b, s[1..], i - 1);
        }
      case _ =>
        assert s[..i][1..] == s[1..][..i - 1] && s[i..] == s[1..][i - 1..];
        ConcatIntro(a[1..], b, s[1..], i - 1);
    }
  }

  /** A match of `a + b` splits `s` into a part that matches `a` and a rest that matches `b`. */
  lemma {:induction false} ConcatSplit(a: seq<Atom>, b: seq<Atom>, s: string) returns (i: nat)
    requires MatchAtoms(a + b, s)
    ensures i <= |s| && MatchAtoms(a, s[..i]) && MatchAtoms(b, s[i..])
    decreases |a|, |s|
  {
    if a == [] {
      assert a + b == b && s[..0] == [] && s[0..] == s;
      i := 0;
    } else {
      assert (a + b)[0] == a[0] && (a + b)[1..] == a[1..] + b;
      match a[0]
      case NonSlashRun =>
        if MatchAtoms(a[1..] + b, s) {
          i := ConcatSplit(a[1..], b, s);
        } else {
          var k := ConcatSplit(a, b, s[1..]);
          i := k + 1;
          assert s[..i][1..] == s[1..][..k] && s[i..] == s[1..][k..];
        }
      case _ =>
        var k := ConcatSplit(a[1..], b, s[1..]);
        i := k + 1;
        assert s[..i][1..] == s[1..][..k] && s[i..] == s[1..][k..];
    }
  }

  lemma CompileAppend(p: string, q: string)
    ensures Compile(p + q) == Compile(p) + Compile(q)
  {
  }

  /**
   * Patterns compose: `p + q` matches a pathname exactly when the pathname splits into a part
   * that `p` matches followed by a part that `q` matches.
   */
  lemma MatchConcat(p: string, q: string, pathname: string)
    ensures MatchUrlPattern(p + q, pathname) <==>
              exists i :: 0 <= i <= |pathname| && MatchUrlPattern(p, pathname[..i]) && MatchUrlPattern(q, pathname[i..])
  {
    CompileAppend(p, q);
    if MatchUrlPattern(p + q, pathname) {
      var i := ConcatSplit(Compile(p), Compile(q), pathname);
      assert MatchUrlPattern(p, pathname[..i]) && MatchUrlPattern(q, pathname[i..]);
    }
    if exists i :: 0 <= i <= |pathname| && MatchUrlPattern(p, pathname[..i]) && MatchUrlPattern(q, pathname[i..]) {
      var i :| 0 <= i <= |pathname| && MatchUrlPattern(p, pathname[..i]) && MatchUrlPattern(q, pathname[i..]);
      ConcatIntro(Compile(p), Compile(q), pathname, i);
    }
  }

  /**
   * A `*` anywhere in a pattern stands for one run of characters without `/`: `p + "*" + q`
   * matches exactly the pathnames made of a part `p` matches, such a run, and a part `q` matches.
   */
  lemma StarInPattern(p: string, q: string, pathname: string)
    ensures MatchUrlPattern(p + "*" + q, pathname) <==>
              exists i, j :: 0 <= i <= j <= |pathname| && MatchUrlPattern(p, pathname[..i])
                             && '/' !in pathname[i..j] && MatchUrlPattern(q, pathname[j..])
  {
    MatchConcat(p + "*", q, pathname);
    if MatchUrlPattern(p + "*" + q, pathname) {
      var j :| 0 <= j <= |pathname| && MatchUrlPattern(p + "*", pathname[..j]) && MatchUrlPattern(q, pathname[j..]);
      MatchConcat(p, "*", pathname[..j]);
      var i :| 0 <= i <= j && MatchUrlPattern(p, pathname[..j][..i]) && MatchUrlPattern("*", pathname[..j][i..]);
      StarMatchesSegment(pathname[..j][i..]);
      assert pathname[..j][..i] == pathname[..i] && pathname[..j][i..] == pathname[i..j];
    }
    if exists i, j :: 0 <= i <= j <= |pathname| && MatchUrlPattern(p, pathname[..i])
                      && '/' !in pathname[i..j] && MatchUrlPattern(q, pathname[j..]) {
      var i, j :| 0 <= i <= j <= |pathname| && MatchUrlPattern(p, pathname[..i])
                  && '/' !in pathname[i..j] && MatchUrlPattern(q, pathname[j..]);
      assert pathname[..j][..i] == pathname[..i] && pathname[..j][i..] == pathname[i..j];
      StarMatchesSegment(pathname[i..j]);
      MatchConcat(p, "*", pathname[..j]);
    }
  }

  // ---------------------------------------------------------------------------------------------
  // Registry and dispatch

  /** `handlers.filter(h => h.urlPattern !== urlPattern)`. */
  function RemovePattern(handlers: seq<Handler>, urlPattern: string): (r: seq<Handler>)
    ensures |r| <= |handlers|
    ensures forall h {:trigger h in r} :: h in r ==> h in handlers && h.urlPattern != urlPattern
    ensures forall h {:trigger h in handlers} :: h in handlers && h.urlPattern != urlPattern ==> h in r
    ensures (forall h :: h in handlers ==> h.urlPattern != urlPattern) ==> r == handlers
  {
    if handlers == [] then []
    else
      assert forall h :: h in handlers <==> h == handlers[0] || h in handlers[1..];
      (if handlers[0].urlPattern != urlPattern then [handlers[0]] else []) + RemovePattern(handlers[1..], urlPattern)
  }

  /** Removal keeps the order of the others: it distributes over a concatenation of registries. */
  lemma {:induction false} RemovePatternAppend(a: seq<Handler>, b: seq<Handler>, urlPattern: string)
    ensures RemovePattern(a + b, urlPattern) == RemovePattern(a, urlPattern) + RemovePattern(b, urlPattern)
  {
    if a == [] {
      assert a + b == b;
    } else {
      assert (a + b)[1..] == a[1..] + b;
      RemovePatternAppend(a[1..], b, urlPattern);
    }
  }

  /** The handlers whose pattern matches the pathname, in registration order. */
  function Matching(handlers: seq<Handler>, pathname: string): (r: seq<Handler>)
    ensures |r| <= |handlers|
  {
    if handlers == [] then []
    else (if MatchUrlPattern(handlers[0].urlPattern, pathname) then [handlers[0]] else []) + Matching(handlers[1..], pathname)
  }

  /** Exactly the registered handlers whose pattern matches are called. */
  lemma {:induction false} MatchingMembers(handlers: seq<Handler>, pathname: string)
    ensures forall h :: h in Matching(handlers, pathname) <==> h in handlers && MatchUrlPattern(h.urlPattern, pathname)
  {
    if handlers != [] {
      MatchingMembers(handlers[1..], pathname);
      assert forall h :: h in handlers <==> h == handlers[0] || h in handlers[1..];
    }
  }

  /** Handlers are called in registration order: matching distributes over a concatenation of registries. */
  lemma {:induction false} MatchingAppend(a: seq<Handler>, b: seq<Handler>, pathname: string)
    ensures Matching(a + b, pathname) == Matching(a, pathname) + Matching(b, pathname)
  {
    if a == [] {
      assert a + b == b;
    } else {
      var head := if MatchUrlPattern(a[0].urlPattern, pathname) then [a[0]] else [];
      var rest, tail := Matching(a[1..], pathname), Matching(b, pathname);
      assert Matching(a + b, pathname) == head + Matching(a[1..] + b, pathname) by {
        assert (a + b)[0] == a[0] && (a + b)[1..] == a[1..] + b;
      }
      assert Matching(a[1..] + b, pathname) == rest + tail by {
        MatchingAppend(a[1..], b, pathname);
      }
      assert head + (rest + tail) == (head + rest) + tail;
    }
  }

  function Throwing(called: seq<Handler>, throws: set<nat>): (r: seq<Handler>)
    ensures |r| <= |called|
    ensures forall h :: h in r <==> h in called && h.id in throws
  {
    if called == [] then []
    else
      assert forall h :: h in called <==> h == called[0] || h in called[1..];
      (if called[0].id in throws then [called[0]] else []) + Throwing(called[1..], throws)
  }

  class NetworkListener {
    var handlers: seq<Handler>
    var isListening: bool

    constructor()
      ensures handlers == [] && !isListening
    {
      handlers := [];
      isListening := false;
    }

    method RegisterHandler(handler: Handler)
      modifies this
      ensures handlers == old(handlers) + [handler] && isListening == old(isListening)
    {
      handlers := handlers + [handler];
    }

    /** Removes every handler with the pattern; reports whether any was removed. */
    method UnregisterHandler(urlPattern: string) returns (removed: bool)
      modifies this
      ensures handlers == RemovePattern(old(handlers), urlPattern) && isListening == old(isListening)
      ensures removed <==> exists h :: h in old(handlers) && h.urlPattern == urlPattern
    {
      var initialLength := |handlers|;
      handlers := RemovePattern(handlers, urlPattern);
      removed := |handlers| < initialLength;
      if !removed {
        assert |handlers| == initialLength;
        NoneRemoved(old(handlers), urlPattern);
      }
    }

    /** Starts listening; reports whether it was already running, in which case nothing changes. */
    method Start() returns (alreadyRunning: bool)
      modifies this
      ensures alreadyRunning == old(isListening)
      ensures isListening && handlers == old(handlers)
    {
      if isListening {
        return true;
      }
      isListening := true;
      return false;
    }

    /** Stops listening; reports whether it was not running, in which case nothing changes. */
    method Stop() returns (notRunning: bool)
      modifies this
      ensures notRunning == !old(isListening)
      ensures !isListening && handlers == old(handlers)
    {
      if !isListening {
        return true;
      }
      isListening := false;
      return false;
    }

    /**
     * The page's response callback, present only while listening: every matching handler is called
     * in registration order, and one that throws is logged without stopping the others.
     */
    method OnResponse(pathname: string, throws: set<nat>) returns (called: seq<Handler>, failed: seq<Handler>)
      ensures called == (if isListening then Matching(handlers, pathname) else [])
      ensures failed == Throwing(called, throws)
    {
      called, failed := [], [];
      if !isListening {
        return;
      }
      var hs := handlers;
      var i := 0;
      while i < |hs|
        invariant 0 <= i <= |hs|
        invariant Matching(hs, pathname) == called + Matching(hs[i..], pathname)
        invariant failed == Throwing(called, throws)
      {
        var handler := hs[i];
        DispatchStep(hs, i, pathname, called, throws);
        if MatchUrlPattern(handler.urlPattern, pathname) {
          called := called + [handler];
          if handler.id in throws {
            failed := failed + [handler];
          }
        }
        i := i + 1;
      }
      assert hs[i..] == [];
      assert called + [] == called;
    }
  }

  /** One step of the dispatch loop: the handler at `i` is called exactly when it matches. */
  lemma DispatchStep(hs: seq<Handler>, i: nat, pathname: string, called: seq<Handler>, throws: set<nat>)
    requires i < |hs|
    requires Matching(hs, pathname) == called + Matching(hs[i..], pathname)
    ensures var m := MatchUrlPattern(hs[i].urlPattern, pathname);
            var next := if m then called + [hs[i]] else called;
            && Matching(hs, pathname) == next + Matching(hs[i + 1..], pathname)
            && Throwing(next, throws) == Throwing(called, throws) + (if m && hs[i].id in throws then [hs[i]] else [])
  {
    var h := hs[i];
    var rest := Matching(hs[i + 1..], pathname);
    assert hs[i..][0] == h && hs[i..][1..] == hs[i + 1..];
    assert Matching(hs[i..], pathname) == (if MatchUrlPattern(h.urlPattern, pathname) then [h] else []) + rest;
    if MatchUrlPattern(h.urlPattern, pathname) {
      assert called + ([h] + rest) == (called + [h]) + rest;
      ThrowingAppend(called, [h], throws);
      assert Throwing([h], throws) == (if h.id in throws then [h] else []) + Throwing([], throws);
    } else {
      assert [] + rest == rest;
    }
  }

  lemma {:induction false} NoneRemoved(handlers: seq<Handler>, urlPattern: string)
    requires |RemovePattern(handlers, urlPattern)| == |handlers|
    ensures forall h :: h in handlers ==> h.urlPattern != urlPattern
  {
    if handlers != [] {
      if handlers[0].urlPattern != urlPattern {
        NoneRemoved(handlers[1..], urlPattern);
      }
    }
  }

  lemma {:induction false} ThrowingAppend(a: seq<Handler>, b: seq<Handler>, throws: set<nat>)
    ensures Throwing(a + b, throws) == Throwing(a, throws) + Throwing(b, throws)
  {
    if a == [] {
      assert a + b == b;
    } else {
      assert (a + b)[1..] == a[1..] + b;
      ThrowingAppend(a[1..], b, throws);
    }
  }
}
