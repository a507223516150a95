/**
 * How the handler prints a response: `response.split("\n")`, an echo test
 * on the first line, and either the joined lines or the prefixed verbose
 * form. Printed text is modelled as the sequence of lines `print` writes.
 */
module Rendering {

  /** `s.split("\n")`: the pieces between line feeds, in order; never empty. */
  function Split(s: string): (lines: seq<string>)
    ensures |lines| >= 1
    decreases |s|
  {
    if s == [] then [""]
    else
      var tail := Split(s[1..]);
      if s[0] == '\n' then [""] + tail
      else [[s[0]] + tail[0]] + tail[1..]
  }

  /** `"\n".join(lines)`. */
  function JoinLines(lines: seq<string>): string
    requires |lines| >= 1
  {
    if |lines| == 1 then lines[0] else lines[0] + "\n" + JoinLines(lines[1..])
  }

  /** `"".join(lines)`. */
  function Concat(lines: seq<string>): string {
    if lines == [] then "" else lines[0] + Concat(lines[1..])
  }

  /** `s` with every line feed removed. */
  function RemoveLineFeeds(s: string): string {
    if s == [] then "" else (if s[0] == '\n' then "" else [s[0]]) + RemoveLineFeeds(s[1..])
  }

  /** `s.startswith(prefix)`: case-sensitive, nothing trimmed. */
  predicate StartsWith(s: string, prefix: string) {
    |prefix| <= |s| && s[..|prefix|] == prefix
  }

  /** Splitting loses nothing: the lines hold no line feed and joining them with one gives the text back. */
  lemma {:induction false} SplitJoin(s: string)
    ensures JoinLines(Split(s)) == s
    ensures forall i :: 0 <= i < |Split(s)| ==> '\n' !in Split(s)[i]
    decreases |s|
  {
    if s != [] {
      var tail := Split(s[1..]);
      SplitJoin(s[1..]);
      if s[0] == '\n' {
        assert Split(s) == [""] + tail;
        assert Split(s)[1..] == tail;
      } else {
        var lines := Split(s);
        assert lines[0] == [s[0]] + tail[0];
        assert lines[1..] == tail[1..];
        if |tail| > 1 {
          assert JoinLines(tail) == tail[0] + "\n" + JoinLines(tail[1..]);
        }
        forall i | 0 <= i < |lines| ensures '\n' !in lines[i] {
          if i > 0 {
            assert lines[i] == tail[i];
          }
        }
      }
    }
  }

  /** There is one line exactly when there is no line feed, and that line is the whole text. */
  lemma {:induction false} SplitSingle(s: string)
    ensures |Split(s)| == 1 <==> '\n' !in s
    ensures '\n' !in s ==> Split(s) == [s]
    decreases |s|
  {
    if s != [] {
      SplitSingle(s[1..]);
      assert s == [s[0]] + s[1..];
    }
  }

  /** The first line is everything before the first line feed; the others are the lines of the rest. */
  lemma {:induction false} SplitAtFirstLineFeed(first: string, rest: string)
    requires '\n' !in first
    ensures Split(first + "\n" + rest) == [first] + Split(rest)
    decreases |first|
  {
    var s := first + "\n" + rest;
    if first == [] {
      assert s == "\n" + rest && s[1..] == rest;
    } else {
      assert s[0] == first[0] && s[1..] == first[1..] + "\n" + rest;
      SplitAtFirstLineFeed(first[1..], rest);
      assert [first[0]] + first[1..] == first;
    }
  }

  /** Joining the lines with no separator is removing every line feed. */
  lemma {:induction false} ConcatSplit(s: string)
    ensures Concat(Split(s)) == RemoveLineFeeds(s)
    decreases |s|
  {
    if s != [] {
      var tail := Split(s[1..]);
      ConcatSplit(s[1..]);
      if s[0] == '\n' {
        assert Split(s)[1..] == tail;
      } else {
        var lines := Split(s);
        assert lines[1..] == tail[1..];
        assert Concat(tail) == tail[0] + Concat(tail[1..]);
      }
    }
  }

  /** `print("> ", line)` for every line, in order. */
  function Prefixed(lines: seq<string>): (out: seq<string>)
    ensures |out| == |lines|
    ensures forall i :: 0 <= i < |lines| ==> out[i] == ">  " + lines[i]
  {
    if lines == [] then [] else [">  " + lines[0]] + Prefixed(lines[1..])
  }

  /** What the handler prints for a response, and whether `response[0]` raised IndexError. */
  datatype Rendered = Rendered(printed: seq<string>, indexError: bool)

  /** Lines 195-212 of the handler. */
  function Render(response: string, verbose: bool): (r: Rendered)
    ensures r.indexError <==> response == ""
    ensures verbose <==> |r.printed| > 0 && r.printed[0] == "" && (response == "" || |r.printed| > 1)
  {
    var lines := Split(response);
    var lead := if verbose then [""] else [];
    if |lines| > 1 then
      if StartsWith(lines[0], "AT") then
        if verbose then Rendered(lead + ["<  " + lines[0], ""] + Prefixed(lines[1..]), false)
        else Rendered(lead + [Concat(lines[1..])], false)
      else Rendered(lead + [Concat(lines)], false)
    else if response == "" then Rendered(lead, true)
    else Rendered(lead + [[response[0]]], false)
  }

  /**
   * A response whose first line (everything before the first line feed)
   * starts with "AT" is an echo. Quietly the handler prints the rest with
   * every line feed removed.
   */
  lemma RenderEchoQuiet(echo: string, rest: string)
    requires '\n' !in echo && StartsWith(echo, "AT")
    ensures Render(echo + "\n" + rest, false) == Rendered([RemoveLineFeeds(rest)], false)
  {
    var lines := Split(echo + "\n" + rest);
    SplitAtFirstLineFeed(echo, rest);
    assert lines[0] == echo && lines[1..] == Split(rest);
    ConcatSplit(rest);
    assert [] + [RemoveLineFeeds(rest)] == [RemoveLineFeeds(rest)];
  }

  /**
   * Verbosely, an echo is printed as a blank line, the echo after "<  ", a
   * blank line, then each remaining line after ">  ".
   */
  lemma RenderEchoVerbose(echo: string, rest: string)
    requires '\n' !in echo && StartsWith(echo, "AT")
    ensures Render(echo + "\n" + rest, true) == Rendered([""] + ["<  " + echo, ""] + Prefixed(Split(rest)), false)
  {
    var lines := Split(echo + "\n" + rest);
    SplitAtFirstLineFeed(echo, rest);
    assert lines[0] == echo && lines[1..] == Split(rest);
  }

  /** Without an echo the handler prints the whole response with every line feed removed. */
  lemma RenderPlain(first: string, rest: string, verbose: bool)
    requires '\n' !in first && !StartsWith(first, "AT")
    ensures Render(first + "\n" + rest, verbose) ==
      Rendered((if verbose then [""] else []) + [RemoveLineFeeds(first + "\n" + rest)], false)
  {
    SplitAtFirstLineFeed(first, rest);
    ConcatSplit(first + "\n" + rest);
  }

  /**
   * A response without a line feed prints only its first character; an
   * empty one raises IndexError after the verbose blank line.
   */
  lemma RenderSingleLine(response: string, verbose: bool)
    requires '\n' !in response
    ensures Render(response, verbose) ==
      if response == [] then Rendered(if verbose then [""] else [], true)
      else Rendered((if verbose then [""] else []) + [response[..1]], false)
  {
    SplitSingle(response);
    if response != [] {
      assert response[..1] == [response[0]];
    }
  }

  lemma {:induction false} RemoveLineFeedsAppend(a: string, b: string)
    ensures RemoveLineFeeds(a + b) == RemoveLineFeeds(a) + RemoveLineFeeds(b)
  {
    if a == [] {
      assert a + b == b;
    } else {
      assert (a + b)[0] == a[0] && (a + b)[1..] == a[1..] + b;
      RemoveLineFeedsAppend(a[1..], b);
    }
  }

  lemma {:induction false} RemoveLineFeedsNone(a: string)
    requires '\n' !in a
    ensures RemoveLineFeeds(a) == a
  {
    if a != [] {
      assert '\n' !in a[1..];
      RemoveLineFeedsNone(a[1..]);
      assert [a[0]] + a[1..] == a;
    }
  }

  /**
   * An echoed reply of one information line, a blank line and the final
   * result code prints quietly as the information line and the result code
   * run together: "AT+CSQ\n+CSQ: 20,99\n\nOK\n" prints "+CSQ: 20,99OK".
   */
  lemma RenderQuietReply(echo: string, info: string, code: string)
    requires '\n' !in echo && StartsWith(echo, "AT") && '\n' !in info && '\n' !in code
    ensures Render(echo + "\n" + info + "\n\n" + code + "\n", false) == Rendered([info + code], false)
  {
    var infoLine := info + "\n";
    var blank := infoLine + "\n";
    var codeLine := code + "\n";
    assert echo + "\n" + info + "\n\n" + code + "\n" == echo + "\n" + (blank + codeLine);
    RenderEchoQuiet(echo, blank + codeLine);
    assert RemoveLineFeeds("\n") == "";
    assert RemoveLineFeeds(infoLine) == info by {
      RemoveLineFeedsAppend(info, "\n");
      RemoveLineFeedsNone(info);
    }
    assert RemoveLineFeeds(blank) == info by {
      RemoveLineFeedsAppend(infoLine, "\n");
    }
    assert RemoveLineFeeds(codeLine) == code by {
      RemoveLineFeedsAppend(code, "\n");
      RemoveLineFeedsNone(code);
    }
    RemoveLineFeedsAppend(blank, codeLine);
  }

  /** Verbosely, the trailing line feed of "OK\n" yields a last line that is only the prefix. */
  lemma RenderVerboseExample()
    ensures Render("AT" + "\n" + "OK" + "\n", true) == Rendered(["", "<  AT", "", ">  OK", ">  "], false)
  {
    var rest := "OK" + "\n" + "";
    assert "AT" + "\n" + "OK" + "\n" == "AT" + "\n" + rest;
    assert StartsWith("AT", "AT");
    RenderEchoVerbose("AT", rest);
    SplitAtFirstLineFeed("OK", "");
    SplitSingle("");
    var lines := Split(rest);
    assert lines == ["OK", ""];
    assert Prefixed(lines)[0] == ">  OK" && Prefixed(lines)[1] == ">  " + "";
    assert ">  " + "" == ">  " && "<  " + "AT" == "<  AT";
    assert Prefixed(lines) == [">  OK", ">  "];
    assert [""] + ["<  AT", ""] + [">  OK", ">  "] == ["", "<  AT", "", ">  OK", ">  "];
  }

  /** A reply without a line feed prints its first character only. */
  lemma RenderErrorExample()
    ensures Render("ERROR", true) == Rendered(["", "E"], false)
  {
    RenderSingleLine("ERROR", true);
  }
}
