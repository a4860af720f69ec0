/**
 * The argument text of an ESB mapper (`WrapArgsForEsb` in internal/util/code_wrappers.go) against a reader of JSON
 * text that follows sections 2, 4, 5 and 7 of RFC 8259: one object with the member "msgs", an array of strings.
 */
module EsbArgs {
  import opened Basics
  import CodeWrappers

  // ----- encoding -----

  function Quoted(m: string): string { "\"" + m + "\"" }

  function Items(msgs: seq<string>): string {
    CodeWrappers.Join(seq(|msgs|, i requires 0 <= i < |msgs| => Quoted(msgs[i])), ",")
  }

  function Wrapped(msgs: seq<string>): string { "{\"msgs\":[" + Items(msgs) + "]}\n" }

  /** `WrapArgsForEsb`: nothing in a message is escaped. */
  method WrapArgsForEsb(msgs: seq<string>) returns (text: string)
    ensures text == Wrapped(msgs)
    ensures |text| == |Items(msgs)| + 12
  {
    var jsonStrings := new string[|msgs|](_ => "");
    for i := 0 to |msgs|
      invariant forall j :: 0 <= j < i ==> jsonStrings[j] == Quoted(msgs[j])
    {
      jsonStrings[i] := Quoted(msgs[i]);
    }
    assert jsonStrings[..] == seq(|msgs|, i requires 0 <= i < |msgs| => Quoted(msgs[i]));
    text := "{\"msgs\":[" + CodeWrappers.Join(jsonStrings[..], ",") + "]}\n";
  }

  lemma ItemsUnfold(msgs: seq<string>)
    requires |msgs| > 1
    ensures Items(msgs) == Quoted(msgs[0]) + "," + Items(msgs[1..])
  {
    var parts := seq(|msgs|, i requires 0 <= i < |msgs| => Quoted(msgs[i]));
    assert parts[1..] == seq(|msgs[1..]|, i requires 0 <= i < |msgs[1..]| => Quoted(msgs[1..][i]));
  }

  // ----- decoding: every reader starts at a position of the text and returns the position after what it read -----

  predicate IsSpace(c: char) { c in {' ', '\t', '\n', '\r'} }

  function SkipSpace(s: string, i: nat): (j: nat)
    requires i <= |s|
    ensures i <= j <= |s|
    ensures i < |s| && !IsSpace(s[i]) ==> j == i
    decreases |s| - i
  {
    if i < |s| && IsSpace(s[i]) then SkipSpace(s, i + 1) else i
  }

  function HexDigit(c: char): Option<int> {
    if '0' <= c <= '9' then Some(c as int - '0' as int)
    else if 'a' <= c <= 'f' then Some(c as int - 'a' as int + 10)
    else if 'A' <= c <= 'F' then Some(c as int - 'A' as int + 10)
    else None
  }

  /** The number written by four hexadecimal digits. */
  function Hex4(s: string, i: nat): Option<int> {
    if i + 4 > |s| then None
    else match (HexDigit(s[i]), HexDigit(s[i + 1]), HexDigit(s[i + 2]), HexDigit(s[i + 3]))
      case (Some(a), Some(b), Some(c), Some(d)) => Some(a * 4096 + b * 256 + c * 16 + d)
      case _ => None
  }

  /** A code unit below or above the surrogates, or a pair of surrogates; a lone surrogate is refused. */
  function UnicodeEscape(s: string, i: nat): (r: Option<(char, nat)>)
    ensures r.Some? ==> i + 2 <= r.value.1 <= |s|
  {
    match Hex4(s, i + 2)
    case None => None
    case Some(v) =>
      if 0 <= v < 0xD800 || 0xE000 <= v < 0x10000 then Some((v as char, i + 6))
      else if 0xD800 <= v < 0xDC00 && i + 12 <= |s| && s[i + 6] == '\\' && s[i + 7] == 'u' then
        match Hex4(s, i + 8)
        case None => None
        case Some(w) =>
          if 0xDC00 <= w < 0xE000 then Some(((0x10000 + (v - 0xD800) * 0x400 + (w - 0xDC00)) as char, i + 12)) else None
      else None
  }

  /** The character written by the escape sequence at `i`. */
  function Escape(s: string, i: nat): (r: Option<(char, nat)>)
    ensures r.Some? ==> i + 2 <= r.value.1 <= |s|
  {
    if i + 2 > |s| then None
    else match s[i + 1]
      case '\"' => Some(('\"', i + 2))
      case '\\' => Some(('\\', i + 2))
      case '/' => Some(('/', i + 2))
      case 'b' => Some((8 as char, i + 2))
      case 'f' => Some((12 as char, i + 2))
      case 'n' => Some(('\n', i + 2))
      case 'r' => Some(('\r', i + 2))
      case 't' => Some(('\t', i + 2))
      case 'u' => UnicodeEscape(s, i)
      case _ => None
  }

  predicate CleanChar(c: char) { c != '\"' && c != '\\' && c >= ' ' }

  /** A message without quotes, backslashes and control characters. */
  predicate Clean(m: string) { forall i :: 0 <= i < |m| ==> CleanChar(m[i]) }

  /**
   * The characters up to and with the closing quote; control characters must be escaped. Every escape is longer
   * than what it stands for, so a text as short as its meaning has none.
   */
  function Chars(s: string, i: nat): (r: Option<(string, nat)>)
    requires i <= |s|
    ensures r.Some? ==> i + |r.value.0| + 1 <= r.value.1 <= |s|
    ensures r.Some? && r.value.1 == i + |r.value.0| + 1 ==> Clean(r.value.0)
    decreases |s| - i
  {
    if i == |s| then None
    else if s[i] == '\"' then Some(("", i + 1))
    else if s[i] == '\\' then
      match Escape(s, i)
      case None => None
      case Some(e) => match Chars(s, e.1) case None => None case Some(p) => Some(([e.0] + p.0, p.1))
    else if s[i] < ' ' then None
    else match Chars(s, i + 1) case None => None case Some(p) => Some(([s[i]] + p.0, p.1))
  }

  predicate Sees(s: string, i: nat, c: char) { i < |s| && s[i] == c }

  /** A string, after any white space. */
  function String(s: string, i: nat): (r: Option<(string, nat)>)
    requires i <= |s|
    ensures r.Some? ==> i + |r.value.0| + 2 <= r.value.1 <= |s|
    ensures r.Some? && r.value.1 == i + |r.value.0| + 2 ==> Clean(r.value.0)
  {
    var j := SkipSpace(s, i);
    if Sees(s, j, '\"') then Chars(s, j + 1) else None
  }

  /** The elements of an array, at least one, up to and with the closing bracket. */
  function Elements(s: string, i: nat): (r: Option<(seq<string>, nat)>)
    requires i <= |s|
    ensures r.Some? ==> r.value.0 != [] && i < r.value.1 <= |s|
    decreases |s| - i
  {
    match String(s, i)
    case None => None
    case Some((m, j)) =>
      var k := SkipSpace(s, j);
      if Sees(s, k, ']') then Some(([m], k + 1))
      else if Sees(s, k, ',') then
        match Elements(s, k + 1) case None => None case Some(p) => Some(([m] + p.0, p.1))
      else None
  }

  /** An array of strings, after any white space. */
  function Array(s: string, i: nat): (r: Option<(seq<string>, nat)>)
    requires i <= |s|
    ensures r.Some? ==> i <= r.value.1 <= |s|
  {
    var j := SkipSpace(s, i);
    if !Sees(s, j, '[') then None
    else
      var k := SkipSpace(s, j + 1);
      if Sees(s, k, ']') then Some(([], k + 1)) else Elements(s, j + 1)
  }

  /** The opening brace, the name "msgs" and the colon. */
  function MemberStart(s: string): (r: Option<nat>)
    ensures r.Some? ==> 8 <= r.value <= |s|
  {
    var i := SkipSpace(s, 0);
    if !Sees(s, i, '{') then None
    else
      match String(s, i + 1)
      case None => None
      case Some((name, j)) =>
        var k := SkipSpace(s, j);
        if name == "msgs" && Sees(s, k, ':') then Some(k + 1) else None
  }

  /** The messages, and the position after the closing brace. */
  function Object(s: string): (r: Option<(seq<string>, nat)>)
    ensures r.Some? ==> r.value.1 <= |s|
  {
    match MemberStart(s)
    case None => None
    case Some(i) =>
      match Array(s, i)
      case None => None
      case Some((ms, j)) =>
        var k := SkipSpace(s, j);
        if Sees(s, k, '}') then Some((ms, k + 1)) else None
  }

  function Decode(s: string): Option<seq<string>> {
    match Object(s)
    case None => None
    case Some((ms, j)) => if SkipSpace(s, j) == |s| then Some(ms) else None
  }

  // ----- reading back what was written -----

  predicate AllClean(msgs: seq<string>) { forall i :: 0 <= i < |msgs| ==> Clean(msgs[i]) }

  /** The text `w` stands at position `i`. */
  predicate At(s: string, i: nat, w: string) { i + |w| <= |s| && forall k :: 0 <= k < |w| ==> w[k] == s[i + k] }

  lemma AtParts(s: string, i: nat, a: string, b: string)
    requires At(s, i, a + b)
    ensures At(s, i, a) && At(s, i + |a|, b)
  {
    forall k | 0 <= k < |a| ensures a[k] == s[i + k] { assert (a + b)[k] == a[k]; }
    forall k | 0 <= k < |b| ensures b[k] == s[i + |a| + k] { assert (a + b)[|a| + k] == b[k]; }
  }

  lemma AtHead(s: string, i: nat, w: string)
    requires At(s, i, w) && w != []
    ensures Sees(s, i, w[0]) && At(s, i + 1, w[1..])
  {
    forall k | 0 <= k < |w| - 1 ensures w[1..][k] == s[i + 1 + k] { assert w[1..][k] == w[k + 1]; }
  }

  /** The first character of a text, and what follows it. */
  lemma AtCons(s: string, i: nat, c: char, w: string)
    requires At(s, i, [c] + w)
    ensures Sees(s, i, c) && At(s, i + 1, w)
  {
    AtHead(s, i, [c] + w);
    assert ([c] + w)[1..] == w;
  }

  lemma {:induction false} CharsOfClean(s: string, i: nat, m: string)
    requires Clean(m) && At(s, i, m + "\"")
    ensures Chars(s, i) == Some((m, i + |m| + 1))
    decreases |m|
  {
    AtHead(s, i, m + "\"");
    if m != [] {
      assert (m + "\"")[1..] == m[1..] + "\"";
      CharsOfClean(s, i + 1, m[1..]);
      assert CleanChar(m[0]) && [m[0]] + m[1..] == m;
    }
  }

  lemma StringOfClean(s: string, i: nat, m: string)
    requires Clean(m) && At(s, i, Quoted(m))
    ensures String(s, i) == Some((m, i + |m| + 2))
  {
    AtHead(s, i, Quoted(m));
    assert Quoted(m)[1..] == m + "\"";
    CharsOfClean(s, i + 1, m);
  }

  lemma ItemsAt(s: string, i: nat, msgs: seq<string>)
    requires msgs != [] && At(s, i, Items(msgs) + "]")
    ensures At(s, i, Quoted(msgs[0]))
    ensures |msgs| == 1 ==> Sees(s, i + |Items(msgs)|, ']') && |Items(msgs)| == |msgs[0]| + 2
    ensures |msgs| > 1 ==>
              && Sees(s, i + |msgs[0]| + 2, ',')
              && At(s, i + |msgs[0]| + 3, Items(msgs[1..]) + "]")
              && |Items(msgs)| == |msgs[0]| + 3 + |Items(msgs[1..])|
  {
    var q := Quoted(msgs[0]);
    if |msgs| == 1 {
      assert Items(msgs) == q;
      AtParts(s, i, q, "]");
      AtHead(s, i + |q|, "]");
    } else {
      ItemsUnfold(msgs);
      var more := Items(msgs[1..]);
      assert Items(msgs) + "]" == q + ("," + (more + "]"));
      AtParts(s, i, q, "," + (more + "]"));
      AtCons(s, i + |q|, ',', more + "]");
    }
  }

  lemma ElementsLast(s: string, i: nat, m: string)
    requires Clean(m) && At(s, i, Quoted(m)) && Sees(s, i + |m| + 2, ']')
    ensures Elements(s, i) == Some(([m], i + |m| + 3))
  {
    StringOfClean(s, i, m);
  }

  lemma ElementsMore(s: string, i: nat, m: string, ms: seq<string>, j: nat)
    requires Clean(m) && At(s, i, Quoted(m)) && Sees(s, i + |m| + 2, ',')
    requires Elements(s, i + |m| + 3) == Some((ms, j))
    ensures Elements(s, i) == Some(([m] + ms, j))
  {
    StringOfClean(s, i, m);
  }

  lemma {:induction false} ElementsOfClean(s: string, i: nat, msgs: seq<string>)
    requires msgs != [] && AllClean(msgs) && At(s, i, Items(msgs) + "]")
    ensures Elements(s, i) == Some((msgs, i + |Items(msgs)| + 1))
    decreases |msgs|
  {
    var m := msgs[0];
    ItemsAt(s, i, msgs);
    if |msgs| == 1 {
      ElementsLast(s, i, m);
      assert msgs == [m];
    } else {
      ElementsOfClean(s, i + |m| + 3, msgs[1..]);
      ElementsMore(s, i, m, msgs[1..], i + |Items(msgs)| + 1);
      assert [m] + msgs[1..] == msgs;
    }
  }

  lemma MemberStartAt(s: string, name: string)
    requires Sees(s, 0, '{') && name == "msgs" && String(s, 1) == Some((name, 7)) && Sees(s, 7, ':')
    ensures MemberStart(s) == Some(8)
  {
  }

  lemma MemberStartOf(s: string, name: string, rest: string)
    requires Clean(name) && name == "msgs" && At(s, 0, "{" + (Quoted(name) + (":" + rest)))
    ensures MemberStart(s) == Some(8) && At(s, 8, rest)
  {
    AtCons(s, 0, '{', Quoted(name) + (":" + rest));
    AtParts(s, 1, Quoted(name), ":" + rest);
    AtCons(s, 7, ':', rest);
    StringOfClean(s, 1, name);
    MemberStartAt(s, name);
  }

  /** `[`, the items, `]` and `}` from position 8. */
  lemma ArrayOfClean(s: string, msgs: seq<string>)
    requires AllClean(msgs) && At(s, 8, "[" + (Items(msgs) + "]" + "}\n"))
    ensures Array(s, 8) == Some((msgs, 10 + |Items(msgs)|))
    ensures Sees(s, 10 + |Items(msgs)|, '}') && Sees(s, 11 + |Items(msgs)|, '\n')
  {
    var n := |Items(msgs)|;
    AtCons(s, 8, '[', Items(msgs) + "]" + "}\n");
    AtParts(s, 9, Items(msgs) + "]", "}\n");
    assert "}\n" == ['}'] + "\n";
    AtCons(s, 10 + n, '}', "\n");
    AtHead(s, 11 + n, "\n");
    if msgs == [] {
      AtHead(s, 9, Items(msgs) + "]");
    } else {
      ElementsOfClean(s, 9, msgs);
      ItemsAt(s, 9, msgs);
      AtHead(s, 9, Quoted(msgs[0]));
    }
  }

  lemma WrappedParts(msgs: seq<string>)
    ensures Wrapped(msgs) == "{" + (Quoted("msgs") + (":" + ("[" + (Items(msgs) + "]" + "}\n"))))
    ensures |Wrapped(msgs)| == |Items(msgs)| + 12
  {
  }

  lemma WrappedStart(msgs: seq<string>)
    ensures MemberStart(Wrapped(msgs)) == Some(8) && At(Wrapped(msgs), 8, "[" + (Items(msgs) + "]" + "}\n"))
    ensures |Wrapped(msgs)| == |Items(msgs)| + 12
  {
    WrappedParts(msgs);
    MemberStartOf(Wrapped(msgs), "msgs", "[" + (Items(msgs) + "]" + "}\n"));
  }

  lemma ObjectAt(s: string, msgs: seq<string>, n: nat)
    requires MemberStart(s) == Some(8) && Array(s, 8) == Some((msgs, n - 1)) && n == |s| - 1
    requires 1 <= n && Sees(s, n - 1, '}') && Sees(s, n, '\n')
    ensures Decode(s) == Some(msgs)
  {
    assert Object(s) == Some((msgs, n));
    assert SkipSpace(s, n + 1) == n + 1;
  }

  /** For every list of clean messages, decoding the wrapped text gives the list back. */
  lemma CleanRoundTrip(msgs: seq<string>)
    requires AllClean(msgs)
    ensures Decode(Wrapped(msgs)) == Some(msgs)
  {
    var s := Wrapped(msgs);
    WrappedStart(msgs);
    ArrayOfClean(s, msgs);
    ObjectAt(s, msgs, |s| - 1);
  }

  // ----- messages that are not clean -----

  /** A text is at least as long as the plain encoding of what it means, and only clean messages can attain that. */
  lemma {:induction false} ElementsLength(s: string, i: nat)
    requires i <= |s| && Elements(s, i).Some?
    ensures var (ms, j) := Elements(s, i).value;
            i + |Items(ms)| + 1 <= j && (j == i + |Items(ms)| + 1 ==> AllClean(ms))
    decreases |s| - i
  {
    var (m, j) := String(s, i).value;
    var k := SkipSpace(s, j);
    if Sees(s, k, ']') {
      assert Items([m]) == Quoted(m);
    } else {
      ElementsLength(s, k + 1);
      var rest := Elements(s, k + 1).value.0;
      ItemsUnfold([m] + rest);
      assert ([m] + rest)[1..] == rest;
    }
  }

  lemma ArrayLength(s: string, i: nat)
    requires i <= |s| && Array(s, i).Some?
    ensures var (ms, j) := Array(s, i).value; i + |Items(ms)| + 2 <= j && (j == i + |Items(ms)| + 2 ==> AllClean(ms))
  {
    var j := SkipSpace(s, i);
    if Sees(s, SkipSpace(s, j + 1), ']') {
      assert Items([]) == "";
    } else {
      ElementsLength(s, j + 1);
    }
  }

  lemma ObjectLength(s: string)
    requires Object(s).Some?
    ensures var (ms, j) := Object(s).value;
            && |Items(ms)| + 11 <= j && s[j - 1] == '}'
            && (j == |Items(ms)| + 11 ==> AllClean(ms))
  {
    ArrayLength(s, MemberStart(s).value);
  }

  /** The exact condition: the wrapped text means the messages it was made from if and only if they are all clean. */
  lemma RoundTripIff(msgs: seq<string>)
    ensures Decode(Wrapped(msgs)) == Some(msgs) <==> AllClean(msgs)
  {
    var s := Wrapped(msgs);
    assert s[|s| - 1] == '\n';
    if AllClean(msgs) {
      CleanRoundTrip(msgs);
    } else if Decode(s) == Some(msgs) {
      ObjectLength(s);
    }
  }

  /** On clean messages the encoding is injective. */
  lemma WrappedIsInjective(a: seq<string>, b: seq<string>)
    requires AllClean(a) && AllClean(b) && Wrapped(a) == Wrapped(b)
    ensures a == b
  {
    CleanRoundTrip(a);
    CleanRoundTrip(b);
  }

  /** One message with a quote reaches the mapper as two messages. */
  lemma QuoteSplitsMessage()
    ensures Wrapped(["a\",\"b"]) == Wrapped(["a", "b"])
    ensures Decode(Wrapped(["a\",\"b"])) == Some(["a", "b"])
  {
    assert Items(["a\",\"b"]) == Quoted("a\",\"b");
    ItemsUnfold(["a", "b"]);
    assert ["a", "b"][1..] == ["b"] && Items(["b"]) == Quoted("b");
    assert Quoted("a\",\"b") == Quoted("a") + "," + Quoted("b");
    CleanRoundTrip(["a", "b"]);
  }
}
