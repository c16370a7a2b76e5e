/** Rendering a template body: replace each `{{ key }}` placeholder from the payload, then refuse
    the result if a placeholder is left in it. */
module Template {
  import opened Domain

  // ---- what a placeholder is -------------------------------------------------------------------

  /** The class \s of the pattern. */
  predicate IsWs(c: char) {
    c == '\t' || c == '\n' || c == '\U{000C}' || c == '\r' || c == ' '
  }

  predicate IsWord(c: char) {
    'a' <= c <= 'z' || 'A' <= c <= 'Z' || '0' <= c <= '9' || c == '_'
  }

  predicate AllWs(s: string) {
    forall i :: 0 <= i < |s| ==> IsWs(s[i])
  }

  predicate IsKey(s: string) {
    s != "" && forall i :: 0 <= i < |s| ==> IsWord(s[i])
  }

  /** t is a placeholder for key, with the given blanks around it. */
  predicate Spelled(t: string, before: string, key: string, after: string) {
    AllWs(before) && IsKey(key) && AllWs(after) && t == "{{" + before + key + after + "}}"
  }

  ghost predicate IsPlaceholder(t: string, key: string) {
    exists before, after :: Spelled(t, before, key, after)
  }

  ghost predicate Starts(s: string) {
    exists e: nat, key :: e <= |s| && IsPlaceholder(s[..e], key)
  }

  ghost predicate Contains(s: string) {
    exists p: nat :: p <= |s| && Starts(s[p..])
  }

  // ---- the scanner -----------------------------------------------------------------------------

  function WsLen(s: string): (n: nat)
    ensures n <= |s| && AllWs(s[..n]) && (n < |s| ==> !IsWs(s[n]))
  {
    if s != "" && IsWs(s[0]) then
      assert forall i :: 0 < i < 1 + WsLen(s[1..]) ==> s[i] == s[1..][i - 1];
      1 + WsLen(s[1..])
    else 0
  }

  function WordLen(s: string): (n: nat)
    ensures n <= |s| && (forall i :: 0 <= i < n ==> IsWord(s[i])) && (n < |s| ==> !IsWord(s[n]))
  {
    if s != "" && IsWord(s[0]) then
      assert forall i :: 0 < i < 1 + WordLen(s[1..]) ==> s[i] == s[1..][i - 1];
      1 + WordLen(s[1..])
    else 0
  }

  datatype Match = Match(len: nat, key: string)

  /** Blanks and the closing braces. */
  function Close(s: string): (r: Option<nat>)
    ensures r.Some? ==> 2 <= r.value <= |s|
  {
    var k := WsLen(s);
    if |s| >= k + 2 && s[k] == '}' && s[k + 1] == '}' then Some(k + 2) else None
  }

  /** The key, then blanks and the closing braces. */
  function KeyClose(s: string): (r: Option<Match>)
    ensures r.Some? ==> 2 <= r.value.len <= |s|
  {
    var n := WordLen(s);
    if n == 0 then None
    else
      match Close(s[n..])
      case None => None
      case Some(k) => Some(Match(n + k, s[..n]))
  }

  /** The placeholder at the front of s, if there is one. */
  function MatchFront(s: string): (r: Option<Match>)
    ensures r.Some? ==> 0 < r.value.len <= |s|
  {
    if !(|s| >= 2 && s[0] == '{' && s[1] == '{') then None
    else
      var w := WsLen(s[2..]);
      match KeyClose(s[2..][w..])
      case None => None
      case Some(m) => Some(Match(2 + w + m.len, m.key))
  }

  /** One character kept as it is, or one placeholder. */
  datatype Token = Chr(c: char) | Hole(text: string, key: string)

  function Scan(s: string): seq<Token>
    decreases |s|
  {
    if s == "" then []
    else
      match MatchFront(s)
      case Some(m) => [Hole(s[..m.len], m.key)] + Scan(s[m.len..])
      case None => [Chr(s[0])] + Scan(s[1..])
  }

  predicate MatchString(s: string) {
    MatchFront(s).Some? || (s != "" && MatchString(s[1..]))
  }

  // ---- rendering -------------------------------------------------------------------------------

  /** The payload column: JSON decoding gives, for each key, the text its value is printed as. */
  datatype Payload = Empty | Malformed | Fields(m: map<string, string>)

  datatype Rendered = Ok(text: string) | EmptyPayload | BadPayload | Unresolved

  function Replacement(t: Token, m: map<string, string>): string {
    match t
    case Chr(c) => [c]
    case Hole(text, key) => if key in m then m[key] else text
  }

  function Substitute(toks: seq<Token>, m: map<string, string>): string {
    if toks == [] then "" else Replacement(toks[0], m) + Substitute(toks[1..], m)
  }

  function Render(body: string, payload: Payload): Rendered {
    if !MatchString(body) then Ok(body)
    else
      match payload
      case Empty => EmptyPayload
      case Malformed => BadPayload
      case Fields(m) =>
        var text := Substitute(Scan(body), m);
        if MatchString(text) then Unresolved else Ok(text)
  }

  // ---- the scanner finds exactly the placeholders ------------------------------------------------

  lemma WsLenIs(before: string, rest: string)
    requires AllWs(before) && (rest != "" ==> !IsWs(rest[0]))
    ensures WsLen(before + rest) == |before|
  {
    var t := before + rest;
    assert forall i :: 0 <= i < |before| ==> t[i] == before[i];
    assert rest != "" ==> t[|before|] == rest[0];
    assert forall i :: 0 <= i < WsLen(t) ==> t[..WsLen(t)][i] == t[i];
  }

  lemma WordLenIs(key: string, rest: string)
    requires IsKey(key) && (rest != "" ==> !IsWord(rest[0]))
    ensures WordLen(key + rest) == |key|
  {
    var t := key + rest;
    assert forall i :: 0 <= i < |key| ==> t[i] == key[i];
    assert rest != "" ==> t[|key|] == rest[0];
  }

  lemma DropPrefix(x: string, y: string)
    ensures (x + y)[|x|..] == y && (x + y)[..|x|] == x
  {
  }

  lemma TakeMore(s: string, n: nat, k: nat)
    requires n <= |s| && k <= |s[n..]|
    ensures s[..n + k] == s[..n] + s[n..][..k]
  {
  }

  lemma CloseSound(s: string) returns (after: string)
    requires Close(s).Some?
    ensures AllWs(after) && s[..Close(s).value] == after + "}}"
  {
    var k := WsLen(s);
    after := s[..k];
    TakeMore(s, k, 2);
    assert s[k..][..2] == "}}";
  }

  lemma KeyCloseSound(s: string) returns (after: string)
    requires KeyClose(s).Some?
    ensures AllWs(after) && IsKey(KeyClose(s).value.key)
    ensures s[..KeyClose(s).value.len] == KeyClose(s).value.key + after + "}}"
  {
    var n := WordLen(s);
    after := CloseSound(s[n..]);
    TakeMore(s, n, Close(s[n..]).value);
  }

  lemma FrontSound(s: string)
    requires MatchFront(s).Some?
    ensures IsPlaceholder(s[..MatchFront(s).value.len], MatchFront(s).value.key)
  {
    var w := WsLen(s[2..]);
    var rest := s[2..][w..];
    var key, len := KeyClose(rest).value.key, KeyClose(rest).value.len;
    var after := KeyCloseSound(rest);
    var before := s[2..][..w];
    Assemble(s, w, len, before, key, after);
    assert Spelled(s[..2 + w + len], before, key, after);
  }

  lemma Assemble(s: string, w: nat, len: nat, before: string, key: string, after: string)
    requires |s| >= 2 && s[0] == '{' && s[1] == '{' && w <= |s[2..]| && len <= |s[2..][w..]|
    requires before == s[2..][..w] && s[2..][w..][..len] == key + after + "}}"
    ensures s[..2 + w + len] == "{{" + before + key + after + "}}"
  {
    TakeMore(s[2..], w, len);
    TakeMore(s, 2, w + len);
    assert s[..2] == "{{";
    Flatten("{{", before, key, after, "}}");
  }

  lemma Flatten(a: string, b: string, c: string, d: string, e: string)
    ensures a + (b + (c + d + e)) == a + b + c + d + e
    ensures a + (b + (c + (d + e))) == a + b + c + d + e
  {
  }

  lemma CloseOf(after: string, tail: string)
    requires AllWs(after)
    ensures Close(after + ("}}" + tail)) == Some(|after| + 2)
  {
    WsLenIs(after, "}}" + tail);
  }

  lemma KeyCloseOf(key: string, after: string, tail: string)
    requires IsKey(key) && AllWs(after)
    ensures KeyClose(key + (after + ("}}" + tail))) == Some(Match(|key| + |after| + 2, key))
  {
    var rest := after + ("}}" + tail);
    assert rest[0] == if after == "" then '}' else after[0];
    WordLenIs(key, rest);
    DropPrefix(key, rest);
    CloseOf(after, tail);
  }

  /** After the opening braces and blanks the key decides. */
  lemma FrontByKey(s: string, before: string, rest: string)
    requires AllWs(before) && rest != "" && !IsWs(rest[0]) && s == "{{" + (before + rest)
    ensures KeyClose(rest).Some? ==>
              MatchFront(s) == Some(Match(2 + |before| + KeyClose(rest).value.len, KeyClose(rest).value.key))
  {
    DropPrefix("{{", before + rest);
    WsLenIs(before, rest);
    DropPrefix(before, rest);
    var inner := s[2..];
    assert inner == before + rest && inner[WsLen(inner)..] == rest;
  }

  lemma KeyStarts(key: string, tail: string)
    requires IsKey(key)
    ensures key + tail != "" && !IsWs((key + tail)[0])
  {
    assert (key + tail)[0] == key[0];
  }

  lemma Regroup(s: string, e: nat, before: string, key: string, after: string)
    requires e <= |s| && s[..e] == "{{" + before + key + after + "}}"
    ensures s == "{{" + (before + (key + (after + ("}}" + s[e..]))))
    ensures e == 4 + |before| + |key| + |after|
  {
    assert s == s[..e] + s[e..];
    assert e == |s[..e]|;
  }

  lemma Parts(s: string, e: nat, key: string) returns (before: string, rest: string)
    requires e <= |s| && IsPlaceholder(s[..e], key)
    ensures AllWs(before) && s == "{{" + (before + rest) && rest != "" && !IsWs(rest[0])
    ensures KeyClose(rest).Some? && KeyClose(rest).value.key == key && e == 2 + |before| + KeyClose(rest).value.len
  {
    var after;
    before, after :| Spelled(s[..e], before, key, after);
    Regroup(s, e, before, key, after);
    rest := key + (after + ("}}" + s[e..]));
    KeyStarts(key, after + ("}}" + s[e..]));
    KeyCloseOf(key, after, s[e..]);
  }

  lemma FrontComplete(s: string, e: nat, key: string)
    requires e <= |s| && IsPlaceholder(s[..e], key)
    ensures MatchFront(s) == Some(Match(e, key))
  {
    var before, rest := Parts(s, e, key);
    FrontByKey(s, before, rest);
  }

  lemma FrontIff(s: string)
    ensures MatchFront(s).Some? <==> Starts(s)
  {
    if MatchFront(s).Some? {
      FrontSound(s);
    }
    if Starts(s) {
      var e: nat, key :| e <= |s| && IsPlaceholder(s[..e], key);
      FrontComplete(s, e, key);
    }
  }

  lemma {:induction false} MatchStringIff(s: string)
    ensures MatchString(s) <==> Contains(s)
  {
    FrontIff(s);
    assert s[0..] == s;
    if s != "" {
      MatchStringIff(s[1..]);
      if Contains(s[1..]) {
        var p: nat :| p <= |s[1..]| && Starts(s[1..][p..]);
        assert s[1..][p..] == s[p + 1..];
      }
      if Contains(s) {
        var p: nat :| p <= |s| && Starts(s[p..]);
        if p > 0 {
          assert s[1..][p - 1..] == s[p..];
        }
      }
    }
  }

  /** The leftmost, non-overlapping decomposition: a character is kept only where no placeholder
      begins, and a placeholder is taken whole. */
  ghost predicate Leftmost(toks: seq<Token>, s: string)
    decreases |toks|
  {
    if toks == [] then s == ""
    else
      match toks[0]
      case Chr(c) => s != "" && s[0] == c && !Starts(s) && Leftmost(toks[1..], s[1..])
      case Hole(text, key) => text <= s && IsPlaceholder(text, key) && Leftmost(toks[1..], s[|text|..])
  }

  lemma FrontUnique(s: string, text: string, key: string)
    requires text <= s && IsPlaceholder(text, key)
    ensures MatchFront(s) == Some(Match(|text|, key)) && text == s[..|text|]
  {
    assert s[..|text|] == text;
    FrontComplete(s, |text|, key);
  }

  /** The scanner's result is a leftmost decomposition ... */
  lemma {:induction false} ScanLeftmost(s: string)
    ensures Leftmost(Scan(s), s)
    decreases |s|
  {
    if s != "" {
      FrontIff(s);
      if MatchFront(s).Some? {
        var m := MatchFront(s).value;
        FrontSound(s);
        ScanLeftmost(s[m.len..]);
        assert Scan(s)[1..] == Scan(s[m.len..]);
      } else {
        ScanLeftmost(s[1..]);
        assert Scan(s)[1..] == Scan(s[1..]);
      }
    }
  }

  /** ... and the only one. */
  lemma {:induction false} LeftmostUnique(toks: seq<Token>, s: string)
    requires Leftmost(toks, s)
    ensures toks == Scan(s)
    decreases |toks|
  {
    if toks != [] {
      assert toks == [toks[0]] + toks[1..];
      match toks[0]
      case Chr(c) =>
        FrontIff(s);
        LeftmostUnique(toks[1..], s[1..]);
      case Hole(text, key) =>
        FrontUnique(s, text, key);
        LeftmostUnique(toks[1..], s[|text|..]);
        assert Scan(s) == [Hole(text, key)] + Scan(s[|text|..]);
    }
  }

  /** Every body has exactly one leftmost decomposition, and the scanner finds it. */
  lemma ScanIsLeftmost(toks: seq<Token>, s: string)
    ensures Leftmost(toks, s) <==> toks == Scan(s)
  {
    ScanLeftmost(s);
    if Leftmost(toks, s) {
      LeftmostUnique(toks, s);
    }
  }

  // ---- what rendering means ----------------------------------------------------------------------

  /** What a token stands for: a character for itself, a placeholder for the value of its key, or for
      its own text when the key is missing. */
  predicate IsPiece(t: Token, m: map<string, string>, piece: string) {
    match t
    case Chr(c) => piece == [c]
    case Hole(text, key) => if key in m then piece == m[key] else piece == text
  }

  /** One piece for each token, in order. */
  predicate Pieces(toks: seq<Token>, m: map<string, string>, pieces: seq<string>) {
    |pieces| == |toks| && forall i :: 0 <= i < |toks| ==> IsPiece(toks[i], m, pieces[i])
  }

  function Concat(pieces: seq<string>): string {
    if pieces == [] then "" else pieces[0] + Concat(pieces[1..])
  }

  /** out consists of one piece for each token, one after the other. */
  ghost predicate FilledIn(toks: seq<Token>, m: map<string, string>, out: string) {
    exists pieces :: Pieces(toks, m, pieces) && out == Concat(pieces)
  }

  lemma {:induction false} SubstitutePieces(toks: seq<Token>, m: map<string, string>) returns (pieces: seq<string>)
    ensures Pieces(toks, m, pieces) && Substitute(toks, m) == Concat(pieces)
  {
    if toks == [] {
      pieces := [];
    } else {
      var rest := SubstitutePieces(toks[1..], m);
      pieces := [Replacement(toks[0], m)] + rest;
      assert pieces[1..] == rest;
    }
  }

  lemma {:induction false} PiecesSpell(toks: seq<Token>, m: map<string, string>, pieces: seq<string>)
    requires Pieces(toks, m, pieces)
    ensures Concat(pieces) == Substitute(toks, m)
  {
    if toks != [] {
      PiecesSpell(toks[1..], m, pieces[1..]);
    }
  }

  /** The substitution is the one text that the tokens, filled in, spell. */
  lemma FilledIff(toks: seq<Token>, m: map<string, string>, out: string)
    ensures FilledIn(toks, m, out) <==> out == Substitute(toks, m)
  {
    if FilledIn(toks, m, out) {
      var pieces :| Pieces(toks, m, pieces) && out == Concat(pieces);
      PiecesSpell(toks, m, pieces);
    }
    var pieces := SubstitutePieces(toks, m);
  }

  predicate HasHole(toks: seq<Token>) {
    exists i :: 0 <= i < |toks| && toks[i].Hole?
  }

  predicate KeysPresent(toks: seq<Token>, m: map<string, string>) {
    forall i :: 0 <= i < |toks| && toks[i].Hole? ==> toks[i].key in m
  }

  function Rest(s: string): string
    requires s != ""
    ensures |Rest(s)| < |s|
  {
    if MatchFront(s).Some? then s[MatchFront(s).value.len..] else s[1..]
  }

  lemma ScanStep(s: string)
    requires s != ""
    ensures Scan(s) != [] && Scan(s)[1..] == Scan(Rest(s))
    ensures Scan(s)[0] == match MatchFront(s)
                          case Some(m) => Hole(s[..m.len], m.key)
                          case None => Chr(s[0])
  {
  }

  lemma WholeMatch(t: string, key: string)
    requires IsPlaceholder(t, key)
    ensures MatchFront(t) == Some(Match(|t|, key))
  {
    assert t[..|t|] == t;
    FrontComplete(t, |t|, key);
  }

  /** A hole holds a placeholder, and matching it again by itself yields the same key. */
  ghost predicate Sound(t: Token) {
    t.Hole? ==> IsPlaceholder(t.text, t.key) && MatchFront(t.text) == Some(Match(|t.text|, t.key))
  }

  lemma FirstSound(s: string)
    requires s != ""
    ensures Scan(s) != [] && Sound(Scan(s)[0])
  {
    ScanStep(s);
    if MatchFront(s).Some? {
      FrontSound(s);
      WholeMatch(Scan(s)[0].text, Scan(s)[0].key);
    }
  }

  lemma {:induction false} ScannedHole(s: string, i: nat)
    requires i < |Scan(s)|
    ensures Sound(Scan(s)[i])
    decreases |s|
  {
    if i > 0 {
      ScanStep(s);
      ScannedHole(Rest(s), i - 1);
      assert Scan(s)[i] == Scan(s)[1..][i - 1];
    } else {
      FirstSound(s);
    }
  }

  /** With nothing to put in, the decomposition spells the body again. */
  lemma ScanSpells(s: string)
    ensures FilledIn(Scan(s), map[], s)
  {
    SubstituteNothing(s);
    FilledIff(Scan(s), map[], s);
  }

  lemma {:induction false} SubstituteNothing(s: string)
    ensures Substitute(Scan(s), map[]) == s
    decreases |s|
  {
    if s != "" {
      ScanStep(s);
      SubstituteNothing(Rest(s));
      assert Substitute(Scan(s), map[]) == Replacement(Scan(s)[0], map[]) + Rest(s);
    }
  }

  lemma HoleAfter(c: char, toks: seq<Token>)
    ensures HasHole([Chr(c)] + toks) <==> HasHole(toks)
  {
    var more := [Chr(c)] + toks;
    if HasHole(toks) {
      var i :| 0 <= i < |toks| && toks[i].Hole?;
      assert more[i + 1].Hole?;
    }
  }

  /** The pattern occurs in the body exactly when the decomposition has a placeholder. */
  lemma {:induction false} MatchMeansHole(s: string)
    ensures MatchString(s) <==> HasHole(Scan(s))
    decreases |s|
  {
    if s != "" {
      if MatchFront(s).Some? {
        assert Scan(s)[0].Hole?;
      } else {
        MatchMeansHole(s[1..]);
        HoleAfter(s[0], Scan(s[1..]));
      }
    }
  }

  lemma PlaceholderInside(pre: string, t: string, key: string, post: string)
    requires IsPlaceholder(t, key)
    ensures Contains(pre + (t + post))
  {
    var s := pre + (t + post);
    DropPrefix(pre, t + post);
    DropPrefix(t, post);
    assert (t + post)[..|t|] == t;
    assert Starts(s[|pre|..]);
  }

  lemma {:induction false} KeptHole(toks: seq<Token>, m: map<string, string>, i: nat)
    returns (pre: string, post: string)
    requires i < |toks| && toks[i].Hole? && toks[i].key !in m
    ensures Substitute(toks, m) == pre + (toks[i].text + post)
  {
    if i == 0 {
      pre, post := "", Substitute(toks[1..], m);
    } else {
      var pre';
      pre', post := KeptHole(toks[1..], m, i - 1);
      pre := Replacement(toks[0], m) + pre';
    }
  }

  /** A placeholder whose key is missing survives the substitution ... */
  lemma MissingKeySurvives(body: string, m: map<string, string>)
    requires !KeysPresent(Scan(body), m)
    ensures Contains(Substitute(Scan(body), m))
  {
    var toks := Scan(body);
    var i :| 0 <= i < |toks| && toks[i].Hole? && toks[i].key !in m;
    ScannedHole(body, i);
    var pre, post := KeptHole(toks, m, i);
    PlaceholderInside(pre, toks[i].text, toks[i].key, post);
  }

  lemma MissingKeyMatches(body: string, m: map<string, string>)
    requires !KeysPresent(Scan(body), m)
    ensures MatchString(body) && MatchString(Substitute(Scan(body), m))
  {
    assert HasHole(Scan(body));
    MatchMeansHole(body);
    MissingKeySurvives(body, m);
    MatchStringIff(Substitute(Scan(body), m));
  }

  /** ... and so the result is refused. */
  lemma MissingKeyRefused(body: string, m: map<string, string>)
    requires !KeysPresent(Scan(body), m)
    ensures Render(body, Fields(m)) == Unresolved
  {
    MissingKeyMatches(body, m);
  }

  /** Rendering succeeds exactly when there is nothing to fill in, or the payload parses, has every
      key, and the filled text holds no placeholder; and this is the text it yields. */
  lemma RenderSucceedsIff(body: string, payload: Payload, out: string)
    ensures Render(body, payload) == Ok(out) <==>
              if Contains(body)
              then payload.Fields? && KeysPresent(Scan(body), payload.m) && FilledIn(Scan(body), payload.m, out)
                   && !Contains(out)
              else out == body
  {
    MatchStringIff(body);
    MatchMeansHole(body);
    if payload.Fields? {
      FilledIff(Scan(body), payload.m, out);
      MatchStringIff(out);
      if !KeysPresent(Scan(body), payload.m) {
        MissingKeyRefused(body, payload.m);
      }
    }
  }

  /** Why rendering fails. */
  lemma RenderFails(body: string, payload: Payload)
    ensures Render(body, payload).EmptyPayload? <==> Contains(body) && payload.Empty?
    ensures Render(body, payload).BadPayload? <==> Contains(body) && payload.Malformed?
    ensures Render(body, payload).Unresolved? <==>
              Contains(body) && payload.Fields? && exists out :: FilledIn(Scan(body), payload.m, out) && Contains(out)
  {
    MatchStringIff(body);
    if payload.Fields? {
      var out := Substitute(Scan(body), payload.m);
      FilledIff(Scan(body), payload.m, out);
      MatchStringIff(out);
      forall other | FilledIn(Scan(body), payload.m, other) ensures other == out {
        FilledIff(Scan(body), payload.m, other);
      }
    }
  }

  /** A successful result is the decomposition with every placeholder replaced by its value, holds
      no placeholder, and is left alone by any further rendering: values are never expanded again. */
  lemma RenderedMeaning(body: string, payload: Payload, again: Payload)
    requires Render(body, payload).Ok?
    ensures
      var out := Render(body, payload).text;
      && !Contains(out)
      && Render(out, again) == Ok(out)
      && (Contains(body) ==>
            payload.Fields? && KeysPresent(Scan(body), payload.m) && FilledIn(Scan(body), payload.m, out))
      && (!Contains(body) ==> out == body)
  {
    var out := Render(body, payload).text;
    RenderSucceedsIff(body, payload, out);
    RenderSucceedsIff(out, again, out);
  }

  /** Nothing but the gaps and the values used can bring a brace into the result. */
  predicate BraceFree(toks: seq<Token>, m: map<string, string>) {
    forall i :: 0 <= i < |toks| ==>
      match toks[i]
      case Chr(c) => c != '{'
      case Hole(_, key) => key in m && '{' !in m[key]
  }

  lemma {:induction false} SubstituteBraceFree(toks: seq<Token>, m: map<string, string>)
    requires BraceFree(toks, m)
    ensures '{' !in Substitute(toks, m)
  {
    if toks != [] {
      assert forall i :: 0 <= i < |toks[1..]| ==> toks[1..][i] == toks[i + 1];
      SubstituteBraceFree(toks[1..], m);
      assert '{' !in Replacement(toks[0], m);
    }
  }

  lemma NoBraceNoStart(s: string, p: nat)
    requires p <= |s| && '{' !in s
    ensures !Starts(s[p..])
  {
    FrontIff(s[p..]);
  }

  /** If the payload parses and neither the gaps nor the inserted values contain an opening brace,
      rendering succeeds. */
  lemma BraceFreeRenders(body: string, m: map<string, string>)
    requires BraceFree(Scan(body), m)
    ensures Render(body, Fields(m)).Ok?
  {
    var out := Substitute(Scan(body), m);
    SubstituteBraceFree(Scan(body), m);
    if Contains(out) {
      var p: nat :| p <= |out| && Starts(out[p..]);
      NoBraceNoStart(out, p);
    }
    FilledIff(Scan(body), m, out);
    RenderSucceedsIff(body, Fields(m), if Contains(body) then out else body);
  }
}
