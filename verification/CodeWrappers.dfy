/** Wrapping and unwrapping of user scripts (internal/util/code_wrappers.go). */
module CodeWrappers {
  import opened Basics

  const IMPORT_JSON := "import json"
  const OPEN_DATA := "with open(\"data.json\") as data:"
  const LOAD_JSON := "    args = json.load(data)"

  const LOAD_ARGS := "\n" + IMPORT_JSON + "\n" + OPEN_DATA + "\n" + LOAD_JSON
  const PRINT_DYN_HANDLE := "print(func(**args))"
  const PRINT_ESB := "print(func(args[\"msgs\"]))"

  const INVOKE_DYN_HANDLE := "\n" + PRINT_DYN_HANDLE
  const INVOKE_ESB := "\n" + PRINT_ESB

  // ----- strings.Split on newlines, and strings.Join -----

  function Split(s: string): (lines: seq<string>)
    ensures lines != []
  {
    if s == [] then [""]
    else if s[0] == '\n' then [""] + Split(s[1..])
    else var rest := Split(s[1..]); [[s[0]] + rest[0]] + rest[1..]
  }

  function Join(parts: seq<string>, sep: string): string {
    if parts == [] then ""
    else if |parts| == 1 then parts[0]
    else parts[0] + sep + Join(parts[1..], sep)
  }

  predicate OneLine(s: string) { '\n' !in s }

  /** Splitting a line, a newline and a rest: the line comes first. */
  lemma {:induction false} SplitLine(l: string, s: string)
    requires OneLine(l)
    ensures Split(l + "\n" + s) == [l] + Split(s)
  {
    if l == [] {
      assert l + "\n" + s == "\n" + s && (("\n" + s)[1..] == s);
    } else {
      SplitLine(l[1..], s);
      assert (l + "\n" + s)[1..] == l[1..] + "\n" + s;
      assert [l[0]] + l[1..] == l;
    }
  }

  lemma {:induction false} SplitOneLine(l: string)
    requires OneLine(l)
    ensures Split(l) == [l]
  {
    if l != [] {
      SplitOneLine(l[1..]);
      assert [l[0]] + l[1..] == l;
    }
  }

  lemma PrependToFirst(c: char, a: seq<string>, b: seq<string>)
    requires a != []
    ensures [[c] + (a + b)[0]] + (a + b)[1..] == ([[c] + a[0]] + a[1..]) + b
  {
  }

  /** Splitting distributes over text joined by a newline. */
  lemma {:induction false} SplitConcat(a: string, b: string)
    ensures Split(a + "\n" + b) == Split(a) + Split(b)
  {
    if a == [] {
      SplitLine(a, b);
    } else {
      var s := a + "\n" + b;
      SplitConcat(a[1..], b);
      assert s[0] == a[0] && s[1..] == a[1..] + "\n" + b;
      if a[0] == '\n' {
        Associative([""], Split(a[1..]), Split(b));
      } else {
        PrependToFirst(a[0], Split(a[1..]), Split(b));
      }
    }
  }

  /** Joining what was split gives the text back. */
  lemma {:induction false} JoinSplit(s: string)
    ensures Join(Split(s), "\n") == s
  {
    if s != [] {
      JoinSplit(s[1..]);
      var rest := Split(s[1..]);
      if s[0] == '\n' {
        assert ([""] + rest)[1..] == rest;
        assert "" + "\n" + Join(rest, "\n") == [s[0]] + s[1..];
      } else {
        var first := [s[0]] + rest[0];
        assert ([first] + rest[1..])[1..] == rest[1..];
        if |rest| == 1 {
          assert Join([first] + rest[1..], "\n") == first;
        } else {
          assert Join([first] + rest[1..], "\n") == [s[0]] + (rest[0] + "\n" + Join(rest[1..], "\n"));
        }
      }
    }
  }

  lemma {:induction false} JoinSnocEmpty(lines: seq<string>)
    requires lines != []
    ensures Join(lines + [""], "\n") == Join(lines, "\n") + "\n"
  {
    if |lines| == 1 {
      assert (lines + [""])[1..] == [""];
    } else {
      JoinSnocEmpty(lines[1..]);
      assert (lines + [""])[1..] == lines[1..] + [""];
      assert lines[0] + "\n" + (Join(lines[1..], "\n") + "\n") == (lines[0] + "\n" + Join(lines[1..], "\n")) + "\n";
    }
  }

  // ----- wrapping -----

  datatype Target = DynHandle | Esb {
    function Invoke(): string { if DynHandle? then INVOKE_DYN_HANDLE else INVOKE_ESB }
  }

  /** `WrapCodeForDynHandle` and `WrapCodeForEsb`. */
  function Wrap(t: Target, code: string): string { LOAD_ARGS + "\n" + code + "\n" + t.Invoke() }

  /** `UnwrapCodeFor*`: the lines after the fourth and before the last; slicing fewer than five lines panics. */
  function Unwrap(text: string): Option<string> {
    var lines := Split(text);
    if |lines| - 1 < 4 then None else Some(Join(lines[4..|lines| - 1], "\n"))
  }

  lemma SplitThree(a: string, b: string, c: string)
    requires OneLine(a) && OneLine(b) && OneLine(c)
    ensures |Split("\n" + a + "\n" + b + "\n" + c)| == 4
  {
    SplitNewlineThen(a);
    SplitOneLine(b);
    SplitOneLine(c);
    SplitConcat("\n" + a, b);
    SplitConcat("\n" + a + "\n" + b, c);
  }

  lemma SplitNewlineThen(a: string)
    requires OneLine(a)
    ensures Split("\n" + a) == ["", a]
  {
    SplitOneLine(a);
    assert ("\n" + a)[1..] == a;
  }

  lemma SplitLoadArgs()
    ensures |Split(LOAD_ARGS)| == 4
  {
    SplitThree(IMPORT_JSON, OPEN_DATA, LOAD_JSON);
  }

  lemma SplitInvoke(t: Target)
    ensures |Split(t.Invoke())| == 2 && Split(t.Invoke())[0] == ""
  {
    SplitNewlineThen(if t.DynHandle? then PRINT_DYN_HANDLE else PRINT_ESB);
  }

  /** Text between a head of four lines and a tail of two, the first of them empty. */
  lemma UnwrapBetween(head: string, code: string, tail: string)
    requires |Split(head)| == 4 && |Split(tail)| == 2 && Split(tail)[0] == ""
    ensures Unwrap(head + "\n" + code + "\n" + tail) == Some(code + "\n")
  {
    var text := head + "\n" + code + "\n" + tail;
    assert text == head + "\n" + (code + "\n" + tail);
    SplitConcat(head, code + "\n" + tail);
    SplitConcat(code, tail);
    var lines := Split(head) + (Split(code) + Split(tail));
    assert lines[4..|lines| - 1] == Split(code) + [""];
    JoinSnocEmpty(Split(code));
    JoinSplit(code);
  }

  /** For every script, empty or not, unwrapping what was wrapped gives the script and one more newline. */
  lemma UnwrapWrap(t: Target, code: string)
    ensures Unwrap(Wrap(t, code)) == Some(code + "\n")
  {
    SplitLoadArgs();
    SplitInvoke(t);
    UnwrapBetween(LOAD_ARGS, code, t.Invoke());
  }

  function Newlines(n: nat): string { seq(n, _ => '\n') }

  /** The script after `n` cycles of fetching it and submitting what was fetched. */
  function Resubmitted(t: Target, code: string, n: nat): Option<string> {
    if n == 0 then Some(code)
    else match Resubmitted(t, code, n - 1) case None => None case Some(c) => Unwrap(Wrap(t, c))
  }

  /** Every cycle adds one newline: `n` cycles add exactly `n`. */
  lemma {:induction false} CyclesAddNewlines(t: Target, code: string, n: nat)
    ensures Resubmitted(t, code, n) == Some(code + Newlines(n))
  {
    if n == 0 {
      assert code + Newlines(0) == code;
    } else {
      CyclesAddNewlines(t, code, n - 1);
      UnwrapWrap(t, code + Newlines(n - 1));
      assert Newlines(n) == Newlines(n - 1) + "\n";
      assert code + Newlines(n - 1) + "\n" == code + Newlines(n);
    }
  }

  /** Different scripts are stored as different files, and the two targets never coincide. */
  lemma WrapIsInjective(t: Target, c: string, u: Target, d: string)
    requires Wrap(t, c) == Wrap(u, d)
    ensures c == d && t == u
  {
    UnwrapWrap(t, c);
    UnwrapWrap(u, d);
    assert c == (c + "\n")[..|c|] && d == (d + "\n")[..|d|];
    assert |Wrap(t, c)| == |LOAD_ARGS| + |c| + |t.Invoke()| + 2;
    assert |Wrap(u, d)| == |LOAD_ARGS| + |d| + |u.Invoke()| + 2;
    assert |t.Invoke()| == if t.DynHandle? then 20 else 26;
    assert |u.Invoke()| == if u.DynHandle? then 20 else 26;
  }

  function CountNewlines(s: string): nat {
    if s == [] then 0 else (if s[0] == '\n' then 1 else 0) + CountNewlines(s[1..])
  }

  lemma {:induction false} SplitCounts(s: string)
    ensures |Split(s)| == CountNewlines(s) + 1
  {
    if s != [] { SplitCounts(s[1..]); }
  }

  /** Unwrapping a stored text panics exactly when it has fewer than four newlines. */
  lemma UnwrapPanicsIff(text: string)
    ensures Unwrap(text) == None <==> CountNewlines(text) < 4
  {
    SplitCounts(text);
  }
}
