/** Strings are sequences of Unicode scalar values; lengths checked by the service are in UTF-8 bytes. */
module Text {
  import opened Domain

  /** Unicode White_Space, which is what trimming removes. */
  predicate IsSpace(c: char) {
    || '\U{0009}' <= c <= '\U{000D}' || c == ' ' || c == '\U{0085}' || c == '\U{00A0}' || c == '\U{1680}'
    || '\U{2000}' <= c <= '\U{200A}' || c == '\U{2028}' || c == '\U{2029}' || c == '\U{202F}' || c == '\U{205F}'
    || c == '\U{3000}'
  }

  function TrimLeft(s: string): string {
    if s != "" && IsSpace(s[0]) then TrimLeft(s[1..]) else s
  }

  function TrimRight(s: string): string {
    if s != "" && IsSpace(s[|s| - 1]) then TrimRight(s[..|s| - 1]) else s
  }

  function Trim(s: string): string {
    TrimRight(TrimLeft(s))
  }

  /** Neither end is a space. */
  predicate Tight(s: string) {
    s != "" ==> !IsSpace(s[0]) && !IsSpace(s[|s| - 1])
  }

  predicate Blank(s: string) {
    forall c :: c in s ==> IsSpace(c)
  }

  lemma {:induction false} LeftSplit(s: string) returns (pre: string)
    ensures s == pre + TrimLeft(s) && Blank(pre)
    ensures TrimLeft(s) != "" ==> !IsSpace(TrimLeft(s)[0])
  {
    if s != "" && IsSpace(s[0]) {
      var rest := LeftSplit(s[1..]);
      pre := [s[0]] + rest;
    } else {
      pre := "";
    }
  }

  lemma {:induction false} RightSplit(s: string) returns (post: string)
    ensures s == TrimRight(s) + post && Blank(post)
    ensures TrimRight(s) != "" ==> !IsSpace(TrimRight(s)[|TrimRight(s)| - 1])
    ensures TrimRight(s) <= s
  {
    if s != "" && IsSpace(s[|s| - 1]) {
      var rest := RightSplit(s[..|s| - 1]);
      post := rest + [s[|s| - 1]];
      assert s == s[..|s| - 1] + [s[|s| - 1]];
    } else {
      post := "";
    }
  }

  /** Trimming removes blanks from both ends and nothing else. */
  lemma TrimSplits(s: string) returns (pre: string, post: string)
    ensures s == pre + Trim(s) + post && Blank(pre) && Blank(post) && Tight(Trim(s))
  {
    pre := LeftSplit(s);
    post := RightSplit(TrimLeft(s));
    assert TrimLeft(s) == Trim(s) + post;
  }

  lemma TrimIdempotent(s: string)
    ensures Trim(Trim(s)) == Trim(s)
  {
    var pre, post := TrimSplits(s);
  }

  /** The text without its surrounding blanks. */
  ghost predicate Stripped(s: string, t: string) {
    Tight(t) && exists pre, post :: s == pre + t + post && Blank(pre) && Blank(post)
  }

  lemma AllBlank(pre: string, t: string, post: string)
    requires Tight(t) && Blank(pre) && Blank(post)
    ensures Blank(pre + t + post) <==> t == ""
  {
    var s := pre + t + post;
    assert t != "" ==> t[0] == s[|pre|] && s[|pre|] in s;
  }

  lemma LeadingBlanks(pre: string, rest: string)
    requires Blank(pre) && rest != "" && !IsSpace(rest[0])
    ensures forall k :: 0 <= k < |pre| ==> IsSpace((pre + rest)[k])
    ensures !IsSpace((pre + rest)[|pre|])
  {
  }

  lemma TrailingBlanks(x: string, post: string)
    requires Blank(post) && x != "" && !IsSpace(x[|x| - 1])
    ensures forall k :: |x| <= k < |x + post| ==> IsSpace((x + post)[k])
    ensures !IsSpace((x + post)[|x| - 1])
  {
  }

  lemma SameLeft(pre: string, x: string, a: string, y: string)
    requires pre + x == a + y && Blank(pre) && Blank(a) && x != "" && y != "" && !IsSpace(x[0]) && !IsSpace(y[0])
    ensures pre == a && x == y
  {
    LeadingBlanks(pre, x);
    LeadingBlanks(a, y);
    assert |pre| == |a|;
    assert pre == (pre + x)[..|pre|] && a == (a + y)[..|a|];
    assert x == (pre + x)[|pre|..] && y == (a + y)[|a|..];
  }

  lemma SameRight(x: string, post: string, y: string, b: string)
    requires x + post == y + b && Blank(post) && Blank(b)
    requires x != "" && y != "" && !IsSpace(x[|x| - 1]) && !IsSpace(y[|y| - 1])
    ensures x == y
  {
    TrailingBlanks(x, post);
    TrailingBlanks(y, b);
    assert |x| == |y|;
    assert x == (x + post)[..|x|] && y == (y + b)[..|y|];
  }

  /** Blanks around a tight text can be told apart from it. */
  lemma SameCore(pre: string, t: string, post: string, a: string, u: string, b: string)
    requires pre + t + post == a + u + b && Tight(t) && Tight(u)
    requires Blank(pre) && Blank(post) && Blank(a) && Blank(b)
    ensures t == u
  {
    AllBlank(pre, t, post);
    AllBlank(a, u, b);
    if t != "" {
      assert pre + t + post == pre + (t + post) && a + u + b == a + (u + b);
      SameLeft(pre, t + post, a, u + b);
      SameRight(t, post, u, b);
    }
  }

  /** Trimming gives the one text that is left when the surrounding blanks go. */
  lemma StrippedIsTrim(s: string, t: string)
    ensures Stripped(s, t) <==> t == Trim(s)
  {
    var pre, post := TrimSplits(s);
    if Stripped(s, t) {
      var a, b :| s == a + t + b && Blank(a) && Blank(b);
      SameCore(pre, Trim(s), post, a, t, b);
    }
  }

  lemma {:induction false} BlankTrims(s: string)
    ensures Trim(s) == "" <==> Blank(s)
  {
    var pre, post := TrimSplits(s);
  }

  /** UTF-8 length of one scalar value. */
  function Width(c: char): nat {
    if c < '\U{0080}' then 1 else if c < '\U{0800}' then 2 else if c < '\U{10000}' then 3 else 4
  }

  function ByteLen(s: string): nat {
    if s == "" then 0 else Width(s[0]) + ByteLen(s[1..])
  }

  /** The UTF-8 encoding of one character. */
  function Utf8(c: char): seq<int> {
    var n := c as nat;
    if n < 0x80 then [n]
    else if n < 0x800 then [0xC0 + n / 64, 0x80 + n % 64]
    else if n < 0x1_0000 then [0xE0 + n / 4096, 0x80 + n / 64 % 64, 0x80 + n % 64]
    else [0xF0 + n / 262_144, 0x80 + n / 4096 % 64, 0x80 + n / 64 % 64, 0x80 + n % 64]
  }

  function Encode(s: string): seq<int> {
    if s == "" then [] else Utf8(s[0]) + Encode(s[1..])
  }

  /** The length of the first character's encoding, told by its first byte, and its code. */
  function FirstCode(b: seq<int>): Option<(nat, int)> {
    if b == [] then None
    else if b[0] < 0x80 then Some((1, b[0]))
    else if 0xC0 <= b[0] < 0xE0 && |b| >= 2 then Some((2, (b[0] - 0xC0) * 64 + b[1] - 0x80))
    else if 0xE0 <= b[0] < 0xF0 && |b| >= 3 then Some((3, (b[0] - 0xE0) * 4096 + (b[1] - 0x80) * 64 + b[2] - 0x80))
    else if 0xF0 <= b[0] && |b| >= 4
    then Some((4, (b[0] - 0xF0) * 262_144 + (b[1] - 0x80) * 4096 + (b[2] - 0x80) * 64 + b[3] - 0x80))
    else None
  }

  lemma FirstCodeOf(c: char, rest: seq<int>)
    ensures FirstCode(Utf8(c) + rest) == Some((Width(c), c as int)) && |Utf8(c)| == Width(c)
    ensures forall k :: 0 <= k < |Utf8(c)| ==> 0 <= Utf8(c)[k] < 0x100
  {
    var n, b := c as int, Utf8(c) + rest;
    Sixes(n);
    assert forall k :: 0 <= k < |Utf8(c)| ==> b[k] == Utf8(c)[k];
  }

  lemma Sixes(n: nat)
    ensures n == n / 64 * 64 + n % 64 && n / 64 == n / 4096 * 64 + n / 64 % 64
    ensures n / 4096 == n / 262_144 * 64 + n / 4096 % 64
  {
  }

  /** The byte length is the length of the encoding, and the encoding loses nothing: texts with the same
      bytes are the same. */
  lemma {:induction false} ByteLenIs(s: string)
    ensures |Encode(s)| == ByteLen(s)
    ensures s != "" ==>
              && FirstCode(Encode(s)) == Some((Width(s[0]), s[0] as int))
              && |Encode(s)| >= Width(s[0]) && Encode(s)[Width(s[0])..] == Encode(s[1..])
  {
    if s != "" {
      ByteLenIs(s[1..]);
      FirstCodeOf(s[0], Encode(s[1..]));
    }
  }

  lemma {:induction false} EncodingUnique(s: string, t: string)
    requires Encode(s) == Encode(t)
    ensures s == t
  {
    ByteLenIs(s);
    ByteLenIs(t);
    assert (s != "" ==> ByteLen(s) > 0) && (t != "" ==> ByteLen(t) > 0);
    if s != "" {
      EncodingUnique(s[1..], t[1..]);
      assert s == [s[0]] + s[1..] && t == [t[0]] + t[1..];
    }
  }

  /** Everything before the first newline, and everything after it if there is one. */
  function FirstLine(s: string): string {
    if s == "" || s[0] == '\n' then "" else [s[0]] + FirstLine(s[1..])
  }

  function AfterFirstLine(s: string): string {
    if s == "" then "" else if s[0] == '\n' then s[1..] else AfterFirstLine(s[1..])
  }

  /** s is cut at its first newline, or is one line with nothing after it. */
  predicate Cut(s: string, head: string, tail: string) {
    '\n' !in head && (s == head + "\n" + tail || (s == head && tail == ""))
  }

  lemma {:induction false} CutAtFirstLine(s: string, head: string, tail: string)
    ensures Cut(s, head, tail) <==> head == FirstLine(s) && tail == AfterFirstLine(s)
  {
    if s != "" && s[0] != '\n' && head != "" {
      CutTail(s, head, tail);
      CutAtFirstLine(s[1..], head[1..], tail);
    }
  }

  lemma CutTail(s: string, head: string, tail: string)
    requires s != "" && head != "" && s[0] != '\n'
    ensures Cut(s, head, tail) <==> head[0] == s[0] && Cut(s[1..], head[1..], tail)
  {
    assert head == [head[0]] + head[1..];
    assert s == [s[0]] + s[1..];
    if Cut(s, head, tail) {
      assert s[0] == head[0];
      if s == head + "\n" + tail {
        assert s[1..] == head[1..] + "\n" + tail;
      }
    }
    if head[0] == s[0] && Cut(s[1..], head[1..], tail) {
      if s[1..] == head[1..] + "\n" + tail {
        assert s == head + "\n" + tail;
      }
    }
  }
}
