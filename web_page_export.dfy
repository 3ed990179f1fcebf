/**
 * SaveAsWebPageAction: saving a copy of the current document as an HTML
 * page. The file dialogs, the overwrite prompt and the writing of the file
 * are left out; what remains is the string logic: the default file name,
 * the extension check on the chosen path, and the page saveAs builds from
 * the token lists of the text area. Escaping, fonts and colours are given
 * functions.
 */
module WebPageExport {
  import opened Wrappers
  import opened Strings

  // ---------------------------------------------------------------------
  // File names
  // ---------------------------------------------------------------------

  /**
   * The name first offered in the save dialog, as written: everything of the
   * full path from its last '.' on is replaced by ".html", or ".html" is
   * appended when the path has no '.'.
   */
  function DefaultHtmlFileName(path: string): (r: string)
    ensures EndsWith(r, ".html")
    ensures '.' !in path ==> r == path + ".html"
    ensures '.' in path ==> exists k :: (0 <= k < |path| && path[k] == '.' &&
                                         (forall j :: k < j < |path| ==> path[j] != '.') &&
                                         r == path[..k] + ".html")
  {
    var extensionStart := LastIndexOf(path, '.');
    if extensionStart != -1 then path[..extensionStart] + ".html"
    else path + ".html"
  }

  /**
   * A '.' in a directory name is taken for the extension of the file: the
   * offered name for a file without an extension loses its directory.
   */
  lemma DefaultHtmlFileNameCutsDirectory()
    ensures DefaultHtmlFileName("a.b/c") == "a.html"
    ensures IntendedDefaultHtmlFileName("a.b/c", '/') == "a.b/c.html"
  {
    var path := "a.b/c";
    assert LastIndexOf(path, '.') == 1;
    assert LastIndexOf(path, '/') == 3;
    assert path[4..] == "c";
  }

  /**
   * The default name the code evidently means: only the file's own name (the
   * part after the last separator) loses its extension.
   */
  function IntendedDefaultHtmlFileName(path: string, separator: char): (r: string)
    ensures EndsWith(r, ".html")
    ensures var nameStart := LastIndexOf(path, separator) + 1;
      |r| >= nameStart && r[..nameStart] == path[..nameStart]
    ensures '.' !in path[LastIndexOf(path, separator) + 1..] ==> r == path + ".html"
    ensures '.' in path[LastIndexOf(path, separator) + 1..] ==>
      exists k :: (LastIndexOf(path, separator) < k < |path| && path[k] == '.' &&
                   (forall j :: k < j < |path| ==> path[j] != '.') &&
                   r == path[..k] + ".html")
  {
    var nameStart := LastIndexOf(path, separator) + 1;
    var name := path[nameStart..];
    var extensionStart := LastIndexOf(name, '.');
    if extensionStart != -1 then
      var k := nameStart + extensionStart;
      assert path[k] == name[extensionStart];
      assert forall j :: k < j < |path| ==> path[j] == name[j - nameStart];
      path[..k] + ".html"
    else path + ".html"
  }

  /** Without a separator in the path, the written and the corrected default names agree. */
  lemma IntendedDefaultHtmlFileNameAgrees(path: string, separator: char)
    requires separator !in path
    ensures IntendedDefaultHtmlFileName(path, separator) == DefaultHtmlFileName(path)
  {
    assert path[0..] == path;
  }

  /** The regular expression [^\.]*\.htm[l]? over the whole string. */
  ghost predicate HtmlPatternRegex(s: string) {
    exists k :: 0 <= k < |s| && '.' !in s[..k] && (s[k..] == ".htm" || s[k..] == ".html")
  }

  /** String.matches("[^\\.]*\\.htm[l]?"): the first '.' is followed by "htm" or "html" and nothing else. */
  function MatchesHtmlPattern(s: string): bool {
    var dot := IndexOf(s, ".");
    dot != -1 && dot < |s| && (s[dot + 1..] == "htm" || s[dot + 1..] == "html")
  }

  /** A one-character pattern occurs where that character is. */
  lemma OccursAtChar(s: string, c: char, i: nat)
    ensures OccursAt(s, [c], i) <==> i < |s| && s[i] == c
  {
    if i < |s| {
      assert s[i..i + 1] == [s[i]];
    }
  }

  /** The first '.' of s is at index i. */
  lemma FirstDotAt(s: string, i: nat)
    requires i < |s| && s[i] == '.' && forall j :: 0 <= j < i ==> s[j] != '.'
    ensures IndexOf(s, ".") == i
  {
    OccursAtChar(s, '.', i);
    forall j | 0 <= j < i
      ensures !OccursAt(s, ".", j)
    {
      OccursAtChar(s, '.', j);
    }
  }

  lemma MatchesHtmlPatternIsRegex(s: string)
    ensures MatchesHtmlPattern(s) <==> HtmlPatternRegex(s)
  {
    var dot := IndexOf(s, ".");
    if MatchesHtmlPattern(s) {
      OccursAtChar(s, '.', dot);
      forall j | 0 <= j < dot ensures s[j] != '.' {
        OccursAtChar(s, '.', j);
      }
      assert '.' !in s[..dot];
      assert s[dot..] == [s[dot]] + s[dot + 1..];
    }
    if HtmlPatternRegex(s) {
      var k :| 0 <= k < |s| && '.' !in s[..k] && (s[k..] == ".htm" || s[k..] == ".html");
      assert s[k] == s[k..][0];
      OccursAtChar(s, '.', k);
      OccursAtChar(s, '.', dot);
      assert dot == k;
      assert s[k + 1..] == s[k..][1..];
    }
  }

  /** The extension check on the chosen path, as written. */
  function EnsureHtmlExtension(path: string): (r: string)
    ensures r == path <==> MatchesHtmlPattern(path)
    ensures r != path ==> r == path + ".html"
    ensures EndsWith(r, ".htm") || EndsWith(r, ".html")
  {
    if !MatchesHtmlPattern(path) then path + ".html" else path
  }

  /**
   * The pattern is matched against the absolute path: a '.' anywhere in a
   * directory name makes an ".html" file get a second ".html", and the check
   * is not idempotent.
   */
  lemma EnsureHtmlExtensionOnDottedDirectory()
    ensures EnsureHtmlExtension("a.b/c.html") == "a.b/c.html.html"
    ensures EnsureHtmlExtension(EnsureHtmlExtension("a.b/c")) != EnsureHtmlExtension("a.b/c")
    ensures IntendedEnsureHtmlExtension("a.b/c.html") == "a.b/c.html"
  {
    DottedDirectoryHtmlFileRejected();
    DottedDirectoryRejectedTwice();
    var s := "a.b/c.html";
    assert s[|s| - 5..] == ".html";
  }

  lemma DottedDirectoryHtmlFileRejected()
    ensures EnsureHtmlExtension("a.b/c.html") == "a.b/c.html.html"
  {
    NotMatchedAfterDottedDirectory("a.b/c.html");
  }

  lemma DottedDirectoryRejectedTwice()
    ensures EnsureHtmlExtension(EnsureHtmlExtension("a.b/c")) != EnsureHtmlExtension("a.b/c")
  {
    NotMatchedAfterDottedDirectory("a.b/c");
    var once := EnsureHtmlExtension("a.b/c");
    assert once == "a.b/c" + ".html";
    assert once[..4] == "a.b/c"[..4];
    NotMatchedAfterDottedDirectory(once);
    assert |EnsureHtmlExtension(once)| == |once| + 5;
  }

  /** A path starting with "a.b/" never matches: the text after its first '.' starts with 'b'. */
  lemma NotMatchedAfterDottedDirectory(s: string)
    requires |s| >= 4 && s[..4] == "a.b/"
    ensures !MatchesHtmlPattern(s)
  {
    assert s[0] == 'a' && s[1] == '.' && s[2] == 'b';
    FirstDotAt(s, 1);
    assert s[2..][0] == 'b';
  }

  /** The check the code evidently means: the path must end in ".htm" or ".html". */
  function IntendedEnsureHtmlExtension(path: string): (r: string)
    ensures r == path <==> EndsWith(path, ".htm") || EndsWith(path, ".html")
    ensures r != path ==> r == path + ".html"
    ensures EndsWith(r, ".htm") || EndsWith(r, ".html")
  {
    if EndsWith(path, ".htm") || EndsWith(path, ".html") then path
    else
      var r := path + ".html";
      assert r[|r| - 5..] == ".html";
      r
  }

  /** Unlike the written check, the intended one is idempotent. */
  lemma IntendedEnsureHtmlExtensionIdempotent(path: string)
    ensures IntendedEnsureHtmlExtension(IntendedEnsureHtmlExtension(path)) == IntendedEnsureHtmlExtension(path)
  {
  }

  /** A '.' followed by ext and nothing else makes the string end with "." + ext. */
  lemma DotThenSuffix(s: string, dot: nat, ext: string)
    requires dot < |s| && s[dot] == '.' && s[dot + 1..] == ext
    ensures EndsWith(s, "." + ext)
  {
    assert s[dot..] == [s[dot]] + s[dot + 1..];
  }

  /** Every path the written check leaves alone is left alone by the intended one. */
  lemma IntendedAcceptsWhatPatternAccepts(path: string)
    requires MatchesHtmlPattern(path)
    ensures IntendedEnsureHtmlExtension(path) == path
  {
    var dot := IndexOf(path, ".");
    OccursAtChar(path, '.', dot);
    if path[dot + 1..] == "htm" {
      DotThenSuffix(path, dot, "htm");
      assert "." + "htm" == ".htm";
    } else {
      DotThenSuffix(path, dot, "html");
      assert "." + "html" == ".html";
    }
  }

  // ---------------------------------------------------------------------
  // The page
  // ---------------------------------------------------------------------

  /** A token of a line's token list: its type, its text and whether it is painted. */
  datatype Token = Token(tokenType: nat, lexeme: string, paintable: bool)

  /** Whether the font of a token type is bold and whether it is italic. */
  datatype TokenFont = TokenFont(bold: bool, italic: bool)

  /**
   * The tokens of one line that saveAs visits: the token list up to, and
   * not including, the first token that is not paintable.
   */
  function PaintedPrefix(line: seq<Token>): (p: seq<Token>)
    ensures |p| <= |line| && p == line[..|p|]
    ensures forall k :: 0 <= k < |p| ==> p[k].paintable
    ensures |p| < |line| ==> !line[|p|].paintable
  {
    if line == [] || !line[0].paintable then [] else [line[0]] + PaintedPrefix(line[1..])
  }

  /** The visited tokens of all lines, in document order. */
  function Painted(lines: seq<seq<Token>>): seq<Token> {
    if lines == [] then [] else Painted(lines[..|lines| - 1]) + PaintedPrefix(lines[|lines| - 1])
  }

  predicate TypesBelow(tokens: seq<Token>, n: nat) {
    forall k :: 0 <= k < |tokens| ==> tokens[k].tokenType < n
  }

  /** The span emitted for one token. */
  function Span(t: Token, escape: string -> string): string {
    "<span class=\"s" + NatToString(t.tokenType) + "\">" + escape(t.lexeme) + "</span>"
  }

  function Spans(tokens: seq<Token>, escape: string -> string): string {
    if tokens == [] then "" else Spans(tokens[..|tokens| - 1], escape) + Span(tokens[|tokens| - 1], escape)
  }

  /** The body: each line's spans followed by one newline. */
  function Body(lines: seq<seq<Token>>, escape: string -> string): string {
    if lines == [] then ""
    else Body(lines[..|lines| - 1], escape) + Spans(PaintedPrefix(lines[|lines| - 1]), escape) + "\n"
  }

  /** The CSS rule built for the type of t, from t's type font and t's colour. */
  function Rule(t: Token, fontOf: nat -> TokenFont, colorOf: Token -> string): string {
    ".s" + NatToString(t.tokenType) + " {\n"
      + (if fontOf(t.tokenType).bold then "font-weight: bold;\n" else "")
      + (if fontOf(t.tokenType).italic then "font-style: italic;\n" else "")
      + "color: " + colorOf(t) + ";\n"
      + "}"
  }

  /** The style cache after visiting t: a rule is built only for a type without one. */
  function CacheStyle(styles: seq<Option<string>>, t: Token, fontOf: nat -> TokenFont, colorOf: Token -> string): seq<Option<string>>
    requires t.tokenType < |styles|
  {
    if styles[t.tokenType].None? then styles[t.tokenType := Some(Rule(t, fontOf, colorOf))] else styles
  }

  function CacheAll(styles: seq<Option<string>>, tokens: seq<Token>, fontOf: nat -> TokenFont, colorOf: Token -> string): (r: seq<Option<string>>)
    requires TypesBelow(tokens, |styles|)
    ensures |r| == |styles|
  {
    if tokens == [] then styles
    else CacheStyle(CacheAll(styles, tokens[..|tokens| - 1], fontOf, colorOf), tokens[|tokens| - 1], fontOf, colorOf)
  }

  /** No cached rule yet: the initial contents of the styles array. */
  function NoStyles(n: nat): (r: seq<Option<string>>)
    ensures |r| == n && forall k :: 0 <= k < n ==> r[k] == None
  {
    seq(n, _ => None)
  }

  /** A rule, once cached, is never overwritten. */
  lemma {:induction false} CacheAllKeeps(styles: seq<Option<string>>, tokens: seq<Token>, fontOf: nat -> TokenFont, colorOf: Token -> string, k: nat)
    requires TypesBelow(tokens, |styles|)
    requires k < |styles| && styles[k].Some?
    ensures CacheAll(styles, tokens, fontOf, colorOf)[k] == styles[k]
    decreases |tokens|
  {
    if tokens != [] {
      CacheAllKeeps(styles, tokens[..|tokens| - 1], fontOf, colorOf, k);
    }
  }

  predicate FirstOfType(tokens: seq<Token>, j: int, k: nat) {
    0 <= j < |tokens| && tokens[j].tokenType == k && forall i :: 0 <= i < j ==> tokens[i].tokenType != k
  }

  /**
   * Starting from an empty slot, a type ends up with a rule exactly when a
   * token of that type was visited, and the rule is the one built from the
   * first such token.
   */
  lemma {:induction false} CacheAllFirst(styles: seq<Option<string>>, tokens: seq<Token>, fontOf: nat -> TokenFont, colorOf: Token -> string, k: nat)
    requires TypesBelow(tokens, |styles|)
    requires k < |styles| && styles[k] == None
    ensures CacheAll(styles, tokens, fontOf, colorOf)[k] == None <==> forall j :: 0 <= j < |tokens| ==> tokens[j].tokenType != k
    ensures forall j :: FirstOfType(tokens, j, k) ==> CacheAll(styles, tokens, fontOf, colorOf)[k] == Some(Rule(tokens[j], fontOf, colorOf))
    decreases |tokens|
  {
    if tokens != [] {
      var init := tokens[..|tokens| - 1];
      var last := tokens[|tokens| - 1];
      CacheAllFirst(styles, init, fontOf, colorOf, k);
      var before := CacheAll(styles, init, fontOf, colorOf);
      if before[k].Some? {
        var j0 :| 0 <= j0 < |init| && init[j0].tokenType == k;
        assert tokens[j0] == init[j0];
        forall j | FirstOfType(tokens, j, k)
          ensures CacheAll(styles, tokens, fontOf, colorOf)[k] == Some(Rule(tokens[j], fontOf, colorOf))
        {
          assert j <= j0;
          assert FirstOfType(init, j, k);
        }
      } else {
        forall j | 0 <= j < |tokens| - 1 ensures tokens[j].tokenType != k {
          assert init[j] == tokens[j];
        }
      }
    }
  }

  /**
   * The CSS rules printed in the style section, by ascending type, each by
   * println: followed by the platform's line separator eol.
   */
  function StylesText(styles: seq<Option<string>>, eol: string): string {
    if styles == [] then ""
    else
      var last := styles[|styles| - 1];
      StylesText(styles[..|styles| - 1], eol) + (if last.Some? then last.value + eol else "")
  }

  /** Rules for lower types are printed before rules for higher ones. */
  lemma {:induction false} StylesTextAppend(a: seq<Option<string>>, b: seq<Option<string>>, eol: string)
    ensures StylesText(a + b, eol) == StylesText(a, eol) + StylesText(b, eol)
    decreases |b|
  {
    if b == [] {
      assert a + b == a;
    } else {
      assert (a + b)[..|a + b| - 1] == a + b[..|b| - 1];
      StylesTextAppend(a, b[..|b| - 1], eol);
    }
  }

  /** The text printed for slot k sits between the text of the lower and of the higher slots. */
  lemma StylesTextSlot(styles: seq<Option<string>>, k: nat, eol: string)
    requires k < |styles|
    ensures StylesText(styles, eol)
         == StylesText(styles[..k], eol)
            + (if styles[k].Some? then styles[k].value + eol else "")
            + StylesText(styles[k + 1..], eol)
  {
    assert styles == styles[..k] + [styles[k]] + styles[k + 1..];
    StylesTextAppend(styles[..k] + [styles[k]], styles[k + 1..], eol);
    StylesTextAppend(styles[..k], [styles[k]], eol);
    assert [styles[k]][..0] == [];
  }

  /**
   * The style section saveAs prints for the visited tokens: the slot of a
   * type that was never visited prints nothing, and the slot of a visited
   * type prints the rule of its first token, between the lower and the
   * higher types.
   */
  lemma StylesTextOfCache(tokens: seq<Token>, n: nat, k: nat, fontOf: nat -> TokenFont, colorOf: Token -> string, eol: string)
    requires TypesBelow(tokens, n) && k < n
    ensures var styles := CacheAll(NoStyles(n), tokens, fontOf, colorOf);
      (forall j :: 0 <= j < |tokens| ==> tokens[j].tokenType != k) ==>
        StylesText(styles, eol) == StylesText(styles[..k], eol) + StylesText(styles[k + 1..], eol)
    ensures var styles := CacheAll(NoStyles(n), tokens, fontOf, colorOf);
      forall j :: FirstOfType(tokens, j, k) ==>
        StylesText(styles, eol)
          == StylesText(styles[..k], eol) + Rule(tokens[j], fontOf, colorOf) + eol + StylesText(styles[k + 1..], eol)
  {
    if forall j :: 0 <= j < |tokens| ==> tokens[j].tokenType != k {
      StylesTextOfUnvisited(tokens, n, k, fontOf, colorOf, eol);
    }
    forall j | FirstOfType(tokens, j, k)
      ensures var styles := CacheAll(NoStyles(n), tokens, fontOf, colorOf);
        StylesText(styles, eol)
          == StylesText(styles[..k], eol) + Rule(tokens[j], fontOf, colorOf) + eol + StylesText(styles[k + 1..], eol)
    {
      StylesTextOfVisited(tokens, n, k, j, fontOf, colorOf, eol);
    }
  }

  /** A type no token has prints nothing at its slot. */
  lemma StylesTextOfUnvisited(tokens: seq<Token>, n: nat, k: nat, fontOf: nat -> TokenFont, colorOf: Token -> string, eol: string)
    requires TypesBelow(tokens, n) && k < n
    requires forall j :: 0 <= j < |tokens| ==> tokens[j].tokenType != k
    ensures var styles := CacheAll(NoStyles(n), tokens, fontOf, colorOf);
      StylesText(styles, eol) == StylesText(styles[..k], eol) + StylesText(styles[k + 1..], eol)
  {
    var styles := CacheAll(NoStyles(n), tokens, fontOf, colorOf);
    CacheAllFirst(NoStyles(n), tokens, fontOf, colorOf, k);
    StylesTextSlot(styles, k, eol);
    assert StylesText(styles[..k], eol) + "" == StylesText(styles[..k], eol);
  }

  /** A type whose first token is tokens[j] prints that token's rule at its slot. */
  lemma StylesTextOfVisited(tokens: seq<Token>, n: nat, k: nat, j: int, fontOf: nat -> TokenFont, colorOf: Token -> string, eol: string)
    requires TypesBelow(tokens, n) && k < n && FirstOfType(tokens, j, k)
    ensures var styles := CacheAll(NoStyles(n), tokens, fontOf, colorOf);
      StylesText(styles, eol)
        == StylesText(styles[..k], eol) + Rule(tokens[j], fontOf, colorOf) + eol + StylesText(styles[k + 1..], eol)
  {
    var styles := CacheAll(NoStyles(n), tokens, fontOf, colorOf);
    CacheAllFirst(NoStyles(n), tokens, fontOf, colorOf, k);
    StylesTextSlot(styles, k, eol);
    var lower, rule, higher := StylesText(styles[..k], eol), Rule(tokens[j], fontOf, colorOf), StylesText(styles[k + 1..], eol);
    assert styles[k] == Some(rule);
    assert lower + (rule + eol) + higher == lower + rule + eol + higher;
  }

  /** Types that never occurred print nothing: an empty cache prints no rule at all. */
  lemma {:induction false} StylesTextOfNone(n: nat, eol: string)
    ensures StylesText(NoStyles(n), eol) == ""
  {
    if n > 0 {
      assert NoStyles(n)[..n - 1] == NoStyles(n - 1);
      StylesTextOfNone(n - 1, eol);
    }
  }

  /**
   * The whole file: the fixed head, the title, the style section and the
   * body. Every println ends its line with eol; the line breaks written
   * inside the string literals and after each document line are '\n'.
   */
  function Page(path: string, css: string, body: string, eol: string): string {
    "<!DOCTYPE html PUBLIC \"-//W3C//DTD XHTML 1.0 Strict//EN\" \"http://www.w3.org/TR/xhtml1/DTD/xhtml1-strict.dtd\">" + eol
      + "<html xmlns=\"http://www.w3.org/1999/xhtml\">" + eol
      + "<head>" + eol
      + "<!-- Generated by RText -->" + eol
      + "<meta http-equiv=\"content-type\" content=\"text/html; charset=utf-8\" />" + eol
      + "<title>" + path + "</title>" + eol
      + "<style type=\"text/css\">" + eol
      + css
      + "</style>" + eol
      + "</head>" + eol
      + "<body>\n<pre>" + eol
      + body + eol
      + "</pre>\n</body>\n</html>" + eol
  }

  lemma PaintedTypesBelow(lines: seq<seq<Token>>, n: nat)
    requires forall l :: 0 <= l < |lines| ==> TypesBelow(PaintedPrefix(lines[l]), n)
    ensures TypesBelow(Painted(lines), n)
  {
    if lines != [] {
      PaintedTypesBelow(lines[..|lines| - 1], n);
    }
  }

  lemma TypesBelowConcat(a: seq<Token>, b: seq<Token>, n: nat)
    requires TypesBelow(a, n) && TypesBelow(b, n)
    ensures TypesBelow(a + b, n)
  {
    forall k | 0 <= k < |a + b| ensures (a + b)[k].tokenType < n {
      if k >= |a| { assert (a + b)[k] == b[k - |a|]; }
    }
  }

  lemma CacheAllSnoc(styles: seq<Option<string>>, tokens: seq<Token>, t: Token, fontOf: nat -> TokenFont, colorOf: Token -> string)
    requires TypesBelow(tokens, |styles|) && t.tokenType < |styles|
    ensures TypesBelow(tokens + [t], |styles|)
    ensures CacheAll(styles, tokens + [t], fontOf, colorOf) == CacheStyle(CacheAll(styles, tokens, fontOf, colorOf), t, fontOf, colorOf)
  {
    assert (tokens + [t])[..|tokens|] == tokens;
  }

  lemma SpansSnoc(tokens: seq<Token>, t: Token, escape: string -> string)
    ensures Spans(tokens + [t], escape) == Spans(tokens, escape) + Span(t, escape)
  {
    assert (tokens + [t])[..|tokens|] == tokens;
  }

  /** Extending a visited prefix by one token appends that token. */
  lemma PrefixSnoc(done: seq<Token>, painted: seq<Token>, j: nat)
    requires j < |painted|
    ensures painted[..j + 1] == painted[..j] + [painted[j]]
    ensures done + painted[..j + 1] == (done + painted[..j]) + [painted[j]]
  {
    assert painted[..j + 1] == painted[..j] + [painted[j]];
  }

  /** What visiting the next painted token adds to the cache and to the spans. */
  lemma VisitStep(styles: seq<Option<string>>, done: seq<Token>, painted: seq<Token>, j: nat,
                  fontOf: nat -> TokenFont, colorOf: Token -> string, escape: string -> string)
    requires j < |painted| && TypesBelow(painted, |styles|)
    requires TypesBelow(done + painted[..j], |styles|)
    ensures TypesBelow(done + painted[..j + 1], |styles|)
    ensures CacheAll(styles, done + painted[..j + 1], fontOf, colorOf)
         == CacheStyle(CacheAll(styles, done + painted[..j], fontOf, colorOf), painted[j], fontOf, colorOf)
    ensures Spans(painted[..j + 1], escape) == Spans(painted[..j], escape) + Span(painted[j], escape)
  {
    var visited := done + painted[..j];
    PrefixSnoc(done, painted, j);
    TypesBelowConcat(visited, [painted[j]], |styles|);
    CacheAllSnoc(styles, visited, painted[j], fontOf, colorOf);
    SpansSnoc(painted[..j], painted[j], escape);
  }

  /** The body of the inner loop: a rule is built only for a type that has none yet. */
  method CacheToken(styles: array<Option<string>>, token: Token, fontOf: nat -> TokenFont, colorOf: Token -> string)
    requires token.tokenType < styles.Length
    modifies styles
    ensures styles[..] == CacheStyle(old(styles[..]), token, fontOf, colorOf)
  {
    if styles[token.tokenType] == None {
      styles[token.tokenType] := Some(Rule(token, fontOf, colorOf));
    }
  }

  /**
   * The inner loop of saveAs for one line: visits the painted tokens,
   * caching a rule for each type seen for the first time, and returns the
   * line's spans.
   */
  method VisitLine(styles: array<Option<string>>, line: seq<Token>, ghost done: seq<Token>,
                   fontOf: nat -> TokenFont, colorOf: Token -> string, escape: string -> string)
    returns (spans: string)
    requires TypesBelow(done, styles.Length) && TypesBelow(PaintedPrefix(line), styles.Length)
    requires styles[..] == CacheAll(NoStyles(styles.Length), done, fontOf, colorOf)
    modifies styles
    ensures TypesBelow(done + PaintedPrefix(line), styles.Length)
    ensures styles[..] == CacheAll(NoStyles(styles.Length), done + PaintedPrefix(line), fontOf, colorOf)
    ensures spans == Spans(PaintedPrefix(line), escape)
  {
    ghost var painted := PaintedPrefix(line);
    ghost var none := NoStyles(styles.Length);
    spans := "";
    var j := 0;
    assert done + painted[..j] == done;
    while j < |line| && line[j].paintable
      invariant j <= |painted|
      invariant TypesBelow(done + painted[..j], styles.Length)
      invariant styles[..] == CacheAll(none, done + painted[..j], fontOf, colorOf)
      invariant spans == Spans(painted[..j], escape)
    {
      var token := line[j];
      assert j < |painted| && token == painted[j];
      VisitStep(none, done, painted, j, fontOf, colorOf, escape);
      CacheToken(styles, token, fontOf, colorOf);
      spans := spans + Span(token, escape);
      j := j + 1;
    }
    assert j == |painted|;
    assert painted[..j] == painted;
  }

  /** The loop that prints the cached rules: ascending type, empty slots skipped. */
  method PrintStyles(styles: array<Option<string>>, eol: string) returns (css: string)
    ensures css == StylesText(styles[..], eol)
  {
    css := "";
    for k := 0 to styles.Length
      invariant css == StylesText(styles[..k], eol)
    {
      assert styles[..k + 1][..k] == styles[..k];
      if styles[k] != None {
        css := css + styles[k].value + eol;
      }
    }
    assert styles[..styles.Length] == styles[..];
  }

  /** What one more line adds to the visited tokens and to the body. */
  lemma LinesStep(lines: seq<seq<Token>>, i: nat, escape: string -> string)
    requires i < |lines|
    ensures Painted(lines[..i + 1]) == Painted(lines[..i]) + PaintedPrefix(lines[i])
    ensures Body(lines[..i + 1], escape) == Body(lines[..i], escape) + Spans(PaintedPrefix(lines[i]), escape) + "\n"
  {
    assert lines[..i + 1][..i] == lines[..i];
  }

  /**
   * The outer loop of saveAs: every line in order, each one's spans
   * followed by a newline in the body.
   */
  method VisitLines(styles: array<Option<string>>, lines: seq<seq<Token>>,
                    fontOf: nat -> TokenFont, colorOf: Token -> string, escape: string -> string)
    returns (body: string)
    requires forall l :: 0 <= l < |lines| ==> TypesBelow(PaintedPrefix(lines[l]), styles.Length)
    requires styles[..] == NoStyles(styles.Length)
    modifies styles
    ensures TypesBelow(Painted(lines), styles.Length)
    ensures styles[..] == CacheAll(NoStyles(styles.Length), Painted(lines), fontOf, colorOf)
    ensures body == Body(lines, escape)
  {
    body := "";
    for i := 0 to |lines|
      invariant TypesBelow(Painted(lines[..i]), styles.Length)
      invariant styles[..] == CacheAll(NoStyles(styles.Length), Painted(lines[..i]), fontOf, colorOf)
      invariant body == Body(lines[..i], escape)
    {
      LinesStep(lines, i, escape);
      var spans := VisitLine(styles, lines[i], Painted(lines[..i]), fontOf, colorOf, escape);
      body := body + spans + "\n";
    }
    assert lines[..|lines|] == lines;
  }

  /**
   * saveAs: walks every line's tokens up to the first one that is not
   * paintable, caching one CSS rule per token type on its first occurrence
   * and emitting one span per token and one newline per line, then prints
   * the cached rules in type order ahead of the body.
   */
  method SaveAs(path: string, lines: seq<seq<Token>>, numTokenTypes: nat,
                fontOf: nat -> TokenFont, colorOf: Token -> string, escape: string -> string, eol: string)
    returns (page: string)
    requires forall l :: 0 <= l < |lines| ==> TypesBelow(PaintedPrefix(lines[l]), numTokenTypes)
    ensures TypesBelow(Painted(lines), numTokenTypes)
    ensures page == Page(path,
                         StylesText(CacheAll(NoStyles(numTokenTypes), Painted(lines), fontOf, colorOf), eol),
                         Body(lines, escape), eol)
  {
    var styles := new Option<string>[numTokenTypes](_ => None);
    assert styles[..] == NoStyles(numTokenTypes);
    var body := VisitLines(styles, lines, fontOf, colorOf, escape);
    var css := PrintStyles(styles, eol);
    assert css == StylesText(CacheAll(NoStyles(numTokenTypes), Painted(lines), fontOf, colorOf), eol);
    page := Page(path, css, body, eol);
  }
}
