/**
 * The string stages of `parseMarkdown` and `wrapLists` in content.js.  The
 * regular-expression passes for headings, emphasis, code and list items, and
 * the list-wrapping pass, are parameters: any string transformation may stand
 * for them, and every property below holds whatever they do.
 */
module Markdown {
  import opened JsStrings

  // ---------------------------------------------------------------- escaping

  /** The first three passes of `parseMarkdown`: `&`, then `<`, then `>`. */
  function EscapeStage(s: string): (r: string)
    ensures '<' !in r && '>' !in r
    ensures s == [] ==> r == []
  {
    ReplaceAll(ReplaceAll(ReplaceAll(s, "&", "&amp;"), "<", "&lt;"), ">", "&gt;")
  }

  /** The entity each character becomes when escaped on its own. */
  function EscapeChar(c: char): string
  {
    if c == '&' then "&amp;" else if c == '<' then "&lt;" else if c == '>' then "&gt;" else [c]
  }

  /** Escaping character by character: the reference the three passes are measured against. */
  function EscapeEach(s: string): string
    decreases |s|
  {
    if s == [] then [] else EscapeChar(s[0]) + EscapeEach(s[1..])
  }

  /** The passes applied to a single character give its entity: no entity is escaped twice. */
  lemma EscapeStageOfChar(c: char)
    ensures EscapeStage([c]) == EscapeChar(c)
  {
    var s1 := ReplaceAll([c], "&", "&amp;");
    var s2 := ReplaceAll(s1, "<", "&lt;");
    if c == '&' {
      assert s1 == "&amp;";
      ReplaceAbsent(s1, "<", "&lt;");
      ReplaceAbsent(s2, ">", "&gt;");
    } else if c == '<' {
      assert s1 == [c];
      assert s2 == "&lt;";
      ReplaceAbsent(s2, ">", "&gt;");
    } else {
      assert s1 == [c];
      assert s2 == [c];
    }
  }

  /** Because `&` is rewritten first, the three passes equal escaping each character once. */
  lemma {:induction false} EscapeStageIsEscapeEach(s: string)
    ensures EscapeStage(s) == EscapeEach(s)
    decreases |s|
  {
    if s != [] {
      var c, t := s[0], s[1..];
      assert s == [c] + t;
      var a1, b1 := ReplaceAll([c], "&", "&amp;"), ReplaceAll(t, "&", "&amp;");
      ReplaceCharAppend([c], t, '&', "&amp;");
      var a2, b2 := ReplaceAll(a1, "<", "&lt;"), ReplaceAll(b1, "<", "&lt;");
      ReplaceCharAppend(a1, b1, '<', "&lt;");
      ReplaceCharAppend(a2, b2, '>', "&gt;");
      EscapeStageOfChar(c);
      EscapeStageIsEscapeEach(t);
    }
  }

  /** Decoding of the three entities, as the browser does when it renders the escaped text. */
  function Unescape(s: string): string
    decreases |s|
  {
    if |s| >= 5 && s[..5] == "&amp;" then "&" + Unescape(s[5..])
    else if |s| >= 4 && s[..4] == "&lt;" then "<" + Unescape(s[4..])
    else if |s| >= 4 && s[..4] == "&gt;" then ">" + Unescape(s[4..])
    else if s == [] then []
    else [s[0]] + Unescape(s[1..])
  }

  lemma {:induction false} UnescapeEscapeEach(s: string)
    ensures Unescape(EscapeEach(s)) == s
    decreases |s|
  {
    if s != [] {
      var c, e, rest := s[0], EscapeChar(s[0]), EscapeEach(s[1..]);
      var x := e + rest;
      assert EscapeEach(s) == x;
      assert x[..|e|] == e && x[|e|..] == rest;
      if c == '&' {
        assert Unescape(x) == "&" + Unescape(rest);
      } else if c == '<' {
        assert x[1] == 'l';
        assert Unescape(x) == "<" + Unescape(rest);
      } else if c == '>' {
        assert x[1] == 'g';
        assert Unescape(x) == ">" + Unescape(rest);
      } else {
        assert x[0] == c && x[1..] == rest;
        assert Unescape(x) == [c] + Unescape(rest);
      }
      UnescapeEscapeEach(s[1..]);
      assert s == [c] + s[1..];
    }
  }

  /** The escape stage loses nothing: decoding its output gives the input back. */
  lemma EscapeRoundTrip(s: string)
    ensures Unescape(EscapeStage(s)) == s
  {
    EscapeStageIsEscapeEach(s);
    UnescapeEscapeEach(s);
  }

  // ---------------------------------------------------------------- newlines

  /** The last two passes: a blank line becomes a paragraph break, any other newline a `<br>`. */
  function NewlineStage(s: string): (r: string)
    ensures '\n' !in r
  {
    ReplaceAll(ReplaceAll(s, "\n\n", "</p><p>"), "\n", "<br>")
  }

  /** Text without newlines passes the newline stage unchanged. */
  lemma NewlineStageWithoutNewlines(s: string)
    requires '\n' !in s
    ensures NewlineStage(s) == s
  {
    ReplaceAbsent(s, "\n\n", "</p><p>");
    ReplaceAbsent(s, "\n", "<br>");
  }

  /** A blank line ends a paragraph: "\n\n" becomes "</p><p>". */
  lemma ParagraphBreak(a: string, b: string)
    requires '\n' !in a
    ensures NewlineStage(a + "\n\n" + b) == a + "</p><p>" + NewlineStage(b)
  {
    var para := "</p><p>";
    assert a + "\n\n" + b == a + ("\n\n" + b);
    ReplaceAfterPrefix(a, "\n\n" + b, "\n\n", para);
    ReplaceAtMatch("\n\n", b, para);
    var y := ReplaceAll(b, "\n\n", para);
    assert ReplaceAll(a + "\n\n" + b, "\n\n", para) == (a + para) + y;
    assert '\n' !in a + para;
    ReplaceAfterPrefix(a + para, y, "\n", "<br>");
  }

  /** A single newline, not followed by another, becomes "<br>". */
  lemma LineBreak(a: string, b: string)
    requires '\n' !in a
    requires b == [] || b[0] != '\n'
    ensures NewlineStage(a + "\n" + b) == a + "<br>" + NewlineStage(b)
  {
    var para := "</p><p>";
    assert a + "\n" + b == a + ("\n" + b);
    ReplaceAfterPrefix(a, "\n" + b, "\n\n", para);
    var y := ReplaceAll(b, "\n\n", para);
    if b == [] {
      assert ReplaceAll("\n" + b, "\n\n", para) == "\n" + y;
    } else {
      assert ("\n" + b)[..2][1] == b[0];
      assert ("\n" + b)[1..] == b;
      assert ReplaceAll("\n" + b, "\n\n", para) == "\n" + y;
    }
    assert ReplaceAll(a + "\n" + b, "\n\n", para) == a + ("\n" + y);
    ReplaceAfterPrefix(a, "\n" + y, "\n", "<br>");
    ReplaceAtMatch("\n", y, "<br>");
  }

  /** Two paragraphs separated by a blank line. */
  lemma TwoParagraphs()
    ensures NewlineStage("a\n\nb") == "a</p><p>b"
  {
    assert "a\n\nb" == "a" + "\n\n" + "b";
    assert '\n' !in "a" && '\n' !in "b";
    ParagraphBreak("a", "b");
    NewlineStageWithoutNewlines("b");
    assert "a" + "</p><p>" + "b" == "a</p><p>b";
  }

  /**
   * `parseMarkdown(text)`, with `markup` standing for the heading, emphasis,
   * code and list passes that run between the escape and newline stages.
   */
  function ParseMarkdown(text: string, markup: string -> string): (r: string)
    ensures text == [] ==> r == []
    ensures '\n' !in r
  {
    if text == [] then [] else NewlineStage(markup(EscapeStage(text)))
  }

  // ---------------------------------------------------------------- wrapLists

  predicate StartsWith(s: string, prefix: string)
  {
    |prefix| <= |s| && s[..|prefix|] == prefix
  }

  /** `/^<(h[1-6]|ul|ol|pre|div|p)/`: the text opens with one of these tag names. */
  predicate OpensBlock(html: string)
  {
    || (StartsWith(html, "<h") && |html| > 2 && '1' <= html[2] <= '6')
    || StartsWith(html, "<ul") || StartsWith(html, "<ol") || StartsWith(html, "<pre")
    || StartsWith(html, "<div") || StartsWith(html, "<p")
  }

  /** The last step of `wrapLists`: non-empty text that opens no block is wrapped in a paragraph. */
  function WrapParagraph(html: string): (r: string)
    ensures html == [] || OpensBlock(html) ==> r == html
    ensures html != [] && !OpensBlock(html) ==> r == "<p>" + html + "</p>"
    ensures r != [] ==> OpensBlock(r)
    ensures r == [] <==> html == []
  {
    if html != [] && !OpensBlock(html) then
      var r := "<p>" + html + "</p>";
      assert r[..2] == "<p";
      r
    else html
  }

  /** Wrapping twice is wrapping once. */
  lemma WrapParagraphIdempotent(html: string)
    ensures WrapParagraph(WrapParagraph(html)) == WrapParagraph(html)
  {
  }

  /** `wrapLists(html)`, with `listPass` standing for the `<ul>` wrapping of list items. */
  function WrapLists(html: string, listPass: string -> string): (r: string)
    ensures r != [] ==> OpensBlock(r)
  {
    WrapParagraph(listPass(html))
  }
}
