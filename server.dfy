/**
 * The request handler of server.js: the routing decision made for a
 * request's pathname (the static prefix, the trailing-slash redirect, the
 * first matching route of the table, the fallback redirect), the wildcard
 * patterns the routes are written in, and the content-type table.
 *
 * Reading the files, writing the response and `path.join` are left to the
 * runtime: a decision names the file to serve relative to the server's
 * directory.
 */
module Server {
  import opened Wrappers
  import opened Js

  // ------------------------------------------------------------ patterns

  /** One unit of the regular expression `wildcardToRegex` builds. Only the
      characters the route table uses are modelled: `*` and `.` are special,
      every other character stands for itself. */
  datatype Token =
    | Lit(c: char)       // the character itself (`/` arrives escaped)
    | AnyChar            // `.`: any character but a line terminator
    | NonSlashRun        // `([^/]+)`: one or more characters other than `/`

  /** The body of the regular expression for `pattern`. `**` is replaced
      first, by `(.*)`; the `*` of that text is then replaced like any other
      `*`, so `**` ends up as `(.([^/]+))`: one character and a non-empty
      run without `/`. */
  function Compile(pattern: string): seq<Token>
    decreases |pattern|
  {
    if pattern == "" then []
    else if |pattern| >= 2 && pattern[0] == '*' && pattern[1] == '*' then [AnyChar, NonSlashRun] + Compile(pattern[2..])
    else if pattern[0] == '*' then [NonSlashRun] + Compile(pattern[1..])
    else if pattern[0] == '.' then [AnyChar] + Compile(pattern[1..])
    else [Lit(pattern[0])] + Compile(pattern[1..])
  }

  /** The characters `.` does not match. */
  predicate LineTerminator(c: char) {
    c == '\n' || c == '\r' || c == '\U{2028}' || c == '\U{2029}'
  }

  /** Whether the anchored expression `^...$` matches all of `s`. */
  predicate Matches(tokens: seq<Token>, s: string)
    decreases |s|
  {
    if tokens == [] then s == ""
    else if s == "" then false
    else match tokens[0]
      case Lit(c) => s[0] == c && Matches(tokens[1..], s[1..])
      case AnyChar => !LineTerminator(s[0]) && Matches(tokens[1..], s[1..])
      case NonSlashRun =>
        s[0] != '/' && (Matches(tokens[1..], s[1..]) || Matches(tokens, s[1..]))
  }

  /** A pattern without `*` or `.` matches exactly itself. */
  lemma {:induction false} LiteralMatches(pattern: string, s: string)
    requires forall i :: 0 <= i < |pattern| ==> pattern[i] != '*' && pattern[i] != '.'
    ensures Matches(Compile(pattern), s) <==> s == pattern
    decreases |pattern|
  {
    if pattern != "" {
      assert Compile(pattern) == [Lit(pattern[0])] + Compile(pattern[1..]);
      assert ([Lit(pattern[0])] + Compile(pattern[1..]))[1..] == Compile(pattern[1..]);
      if s != "" {
        LiteralMatches(pattern[1..], s[1..]);
        if s[0] == pattern[0] && s[1..] == pattern[1..] {
          assert s == [s[0]] + s[1..] && pattern == [pattern[0]] + pattern[1..];
        }
      }
    }
  }

  /** `([^/]+)` alone matches exactly the non-empty strings without `/`. */
  lemma {:induction false} RunMatches(s: string)
    ensures Matches([NonSlashRun], s) <==> s != "" && '/' !in s
    decreases |s|
  {
    if s != "" {
      assert [NonSlashRun][1..] == [];
      RunMatches(s[1..]);
      assert s == [s[0]] + s[1..];
    }
  }

  /** `**` is mangled by the second replacement: it matches one character
      that is not a line terminator followed by a non-empty run without
      `/`, not an arbitrary string. */
  lemma DoubleStarMatches(s: string)
    ensures Matches(Compile("**"), s) <==> |s| >= 2 && !LineTerminator(s[0]) && '/' !in s[1..]
  {
    assert Compile("**") == [AnyChar, NonSlashRun];
    assert [AnyChar, NonSlashRun][1..] == [NonSlashRun];
    if s != "" {
      RunMatches(s[1..]);
    }
  }

  /** The index of the first `/` of `s`, or `|s|` when there is none. */
  function FirstSlash(s: string): (i: nat)
    ensures i <= |s| && (i < |s| ==> s[i] == '/') && forall j :: 0 <= j < i ==> s[j] != '/'
    decreases |s|
  {
    if s == "" || s[0] == '/' then 0 else 1 + FirstSlash(s[1..])
  }

  /** `([^/]+)\/` followed by `rest` matches `s` exactly when the first `/`
      of `s` comes after at least one character and `rest` matches what
      follows it. */
  lemma {:induction false} RunThenSlash(rest: seq<Token>, s: string)
    ensures Matches([NonSlashRun, Lit('/')] + rest, s) <==>
              0 < FirstSlash(s) < |s| && Matches(rest, s[FirstSlash(s) + 1..])
    decreases |s|
  {
    var t := [NonSlashRun, Lit('/')] + rest;
    if s != "" && s[0] != '/' {
      assert t[1..] == [Lit('/')] + rest && ([Lit('/')] + rest)[1..] == rest;
      RunThenSlash(rest, s[1..]);
      assert FirstSlash(s) == 1 + FirstSlash(s[1..]);
      if FirstSlash(s[1..]) < |s| - 1 {
        assert s[1..][FirstSlash(s[1..]) + 1..] == s[FirstSlash(s) + 1..];
      }
    }
  }

  /** `n` groups of `([^/]+)\/`. */
  function Groups(n: nat): (t: seq<Token>)
    ensures |t| == 2 * n
  {
    if n == 0 then [] else [NonSlashRun, Lit('/')] + Groups(n - 1)
  }

  /** The path rest after the leading `/` is `n` non-empty segments, each
      with its `/`: splitting it on `/` gives `n` non-empty pieces and a
      final empty one. */
  predicate SegmentsForm(s: string, n: nat) {
    var parts := Split(s, '/');
    |parts| == n + 1 && parts[n] == "" && forall i :: 0 <= i < n ==> parts[i] != ""
  }

  /** `n` groups match `s` exactly when `s` is `n` non-empty segments each
      closed by `/`. */
  lemma {:induction false} GroupsMatch(n: nat, s: string)
    ensures Matches(Groups(n), s) <==> SegmentsForm(s, n)
    decreases n
  {
    if n == 0 {
      if Split(s, '/') == [""] {
        JoinSplit(s, '/');
      }
    } else {
      RunThenSlash(Groups(n - 1), s);
      var i := FirstSlash(s);
      if i < |s| {
        GroupsMatch(n - 1, s[i + 1..]);
        SegmentsStep(n, s, i);
      } else {
        SplitFree(s, '/');
      }
    }
  }

  /** `s` is `n` segments exactly when its first `/` closes a non-empty
      first segment and `n - 1` segments follow it. */
  lemma SegmentsStep(n: nat, s: string, i: nat)
    requires n > 0 && i < |s| && s[i] == '/' && forall j :: 0 <= j < i ==> s[j] != '/'
    ensures SegmentsForm(s, n) <==> i > 0 && SegmentsForm(s[i + 1..], n - 1)
  {
    var rest := Split(s[i + 1..], '/');
    SplitFirst(s, i);
    var parts := Split(s, '/');
    if SegmentsForm(s, n) {
      assert parts[0] == s[..i] && |s[..i]| == i;
      forall j | 0 <= j < n - 1 ensures rest[j] != "" {
        assert parts[j + 1] == rest[j];
      }
      assert parts[n] == rest[n - 1];
    }
    if i > 0 && SegmentsForm(s[i + 1..], n - 1) {
      forall j | 0 <= j < n ensures parts[j] != "" {
        if j > 0 {
          assert parts[j] == rest[j - 1];
        } else {
          assert |s[..i]| == i;
        }
      }
      assert parts[n] == rest[n - 1];
    }
  }

  /** Splitting at the first `/` gives the text before it and then the
      pieces of the text after it. */
  lemma SplitFirst(s: string, i: nat)
    requires i < |s| && s[i] == '/' && forall j :: 0 <= j < i ==> s[j] != '/'
    ensures Split(s, '/') == [s[..i]] + Split(s[i + 1..], '/')
  {
    assert s == s[..i] + ['/'] + s[i + 1..];
    SplitAround(s[..i], s[i + 1..], '/');
  }

  // -------------------------------------------------------------- routes

  /** The pages the server has; the decision names them relative to the
      server's directory. */
  const Robots: string := "html/robots.txt"
  const DataPage: string := "html/data.html"
  const BoardPage: string := "html/board.html"

  datatype Route = Route(urlpath: string, fp: string)

  /** The route table, tried in order. */
  const Urls: seq<Route> := [
    Route("/robots.txt", Robots),
    Route("/data/", DataPage),
    Route("", BoardPage),
    Route("/", BoardPage),
    Route("/*/", BoardPage),
    Route("/*/*/", BoardPage),
    Route("/*/*/*/", BoardPage)
  ]

  /** Pathnames that are not sent to their trailing-slash form. */
  const SlashRedirectExclude: seq<string> := ["/robots.txt", "/favicon.ico"]

  /** What the handler does with a request. */
  datatype Decision =
    | ServeStatic(file: string)   // `static/` joined with the file
    | Serve(fp: string)           // a route's file
    | Redirect(location: string)  // a 302 to `location`

  /** `pathname.split("/")[1] == "static"`. */
  predicate IsStatic(pathname: string) {
    var parts := Split(pathname, '/');
    |parts| >= 2 && parts[1] == "static"
  }

  /** `pathname.slice(-1) == "/"`. */
  predicate EndsWithSlash(pathname: string) {
    pathname != "" && pathname[|pathname| - 1] == '/'
  }

  /** The first route from `i` on whose pattern matches. */
  function FirstRoute(pathname: string, i: nat): (r: Option<nat>)
    requires i <= |Urls|
    ensures r.Some? ==> i <= r.value < |Urls| && Matches(Compile(Urls[r.value].urlpath), pathname)
    ensures r.Some? ==> forall j :: i <= j < r.value ==> !Matches(Compile(Urls[j].urlpath), pathname)
    ensures r.None? ==> forall j :: i <= j < |Urls| ==> !Matches(Compile(Urls[j].urlpath), pathname)
    decreases |Urls| - i
  {
    if i == |Urls| then None
    else if Matches(Compile(Urls[i].urlpath), pathname) then Some(i)
    else FirstRoute(pathname, i + 1)
  }

  /** The routing decision for `pathname`, in the order the handler makes
      its tests. */
  function Decide(pathname: string): Decision {
    if IsStatic(pathname) then ServeStatic(ReplaceFirst(pathname, "/static/", ""))
    else if !EndsWithSlash(pathname) && pathname !in SlashRedirectExclude then Redirect(pathname + "/")
    else match FirstRoute(pathname, 0)
      case Some(i) => Serve(Urls[i].fp)
      case None => Redirect("/")
  }

  /** The request handler: the static test, the trailing-slash test, then
      the loop over the route table with its first match served. */
  method HandleRequest(pathname: string) returns (d: Decision)
    ensures d == Decide(pathname)
  {
    var parts := Split(pathname, '/');
    if |parts| >= 2 && parts[1] == "static" {
      return ServeStatic(ReplaceFirst(pathname, "/static/", ""));
    }
    if !EndsWithSlash(pathname) && pathname !in SlashRedirectExclude {
      return Redirect(pathname + "/");
    }
    var i := 0;
    while i < |Urls|
      invariant 0 <= i <= |Urls|
      invariant FirstRoute(pathname, 0) == FirstRoute(pathname, i)
    {
      var route := Urls[i];
      if Matches(Compile(route.urlpath), pathname) {
        assert FirstRoute(pathname, i) == Some(i);
        return Serve(route.fp);
      }
      assert FirstRoute(pathname, i) == FirstRoute(pathname, i + 1);
      i := i + 1;
    }
    d := Redirect("/");
  }

  // ---------------------------------------------------------- properties

  /** The board is served for `/` and for 1 to 3 non-empty segments with a
      trailing `/`: splitting on `/` gives an empty first and last piece and
      non-empty pieces between them. */
  predicate BoardPath(pathname: string) {
    var parts := Split(pathname, '/');
    2 <= |parts| <= 5 && parts[0] == "" && parts[|parts| - 1] == ""
    && forall i :: 0 < i < |parts| - 1 ==> parts[i] != ""
  }

  /** `n` copies of the two-character text star-slash. */
  function StarSlashes(n: nat): string {
    if n == 0 then "" else "*/" + StarSlashes(n - 1)
  }

  /** `n` copies of star-slash compile to `n` groups. */
  lemma {:induction false} CompileStarSlashes(n: nat)
    ensures Compile(StarSlashes(n)) == Groups(n)
  {
    if n > 0 {
      var rest := StarSlashes(n - 1);
      var p := "*/" + rest;
      assert p[0] == '*' && p[1] == '/' && p[1..] == "/" + rest && p[2..] == rest;
      assert ("/" + rest)[0] == '/' && ("/" + rest)[1..] == rest;
      assert Compile(p) == [NonSlashRun] + Compile(p[1..]);
      CompileStarSlashes(n - 1);
    }
  }

  /** The board patterns are `/` followed by 0 to 3 copies of star-slash. */
  lemma BoardPatternText(n: nat)
    requires n <= 3
    ensures Urls[3 + n].urlpath == "/" + StarSlashes(n)
  {
    assert StarSlashes(0) == "";
    assert StarSlashes(1) == "*/" + "";
    assert StarSlashes(2) == "*/" + ("*/" + "");
    assert StarSlashes(3) == "*/" + ("*/" + ("*/" + ""));
  }

  /** The compiled board pattern of route `3 + n`: `/` followed by `n`
      groups. */
  lemma CompiledBoardRoute(n: nat)
    requires n <= 3
    ensures Compile(Urls[3 + n].urlpath) == [Lit('/')] + Groups(n)
  {
    BoardPatternText(n);
    var p := "/" + StarSlashes(n);
    assert p[0] == '/' && p[1..] == StarSlashes(n);
    CompileStarSlashes(n);
  }

  /** `/` followed by `n` groups matches exactly the board paths of `n`
      segments. */
  lemma SlashGroupsMatch(n: nat, pathname: string)
    requires n <= 3
    ensures Matches([Lit('/')] + Groups(n), pathname) <==>
              BoardPath(pathname) && |Split(pathname, '/')| == n + 2
  {
    var t := [Lit('/')] + Groups(n);
    assert t[1..] == Groups(n);
    var parts := Split(pathname, '/');
    if pathname != "" && pathname[0] == '/' {
      assert Matches(t, pathname) == Matches(Groups(n), pathname[1..]);
      GroupsMatch(n, pathname[1..]);
      assert pathname == [] + ['/'] + pathname[1..];
      SplitAround([], pathname[1..], '/');
      var rest := Split(pathname[1..], '/');
      assert parts == [""] + rest;
      if SegmentsForm(pathname[1..], n) {
        forall j | 0 < j < |parts| - 1 ensures parts[j] != "" {
          assert parts[j] == rest[j - 1];
        }
        assert parts[|parts| - 1] == rest[n];
      }
      if BoardPath(pathname) && |parts| == n + 2 {
        forall j | 0 <= j < n ensures rest[j] != "" {
          assert parts[j + 1] == rest[j];
        }
        assert parts[|parts| - 1] == rest[n];
        assert SegmentsForm(pathname[1..], n);
      }
    } else if pathname != "" {
      FirstPieceNonEmpty(pathname);
    } else {
      assert parts == [""];
    }
  }

  /** A string that does not start with `/` splits into a non-empty first
      piece. */
  lemma FirstPieceNonEmpty(s: string)
    requires s != "" && s[0] != '/'
    ensures Split(s, '/')[0] != ""
  {
    assert Split(s, '/')[0] == [s[0]] + Split(s[1..], '/')[0];
  }

  /** The pattern of board route `3 + n` matches exactly the paths of `n`
      non-empty segments. */
  lemma BoardRouteMatches(n: nat, pathname: string)
    requires n <= 3
    ensures Matches(Compile(Urls[3 + n].urlpath), pathname) <==>
              BoardPath(pathname) && |Split(pathname, '/')| == n + 2
  {
    CompiledBoardRoute(n);
    SlashGroupsMatch(n, pathname);
  }

  /** The only patterns that can match a path ending in `/` are the data
      route and the board routes. */
  lemma OtherRoutesMiss(pathname: string)
    requires EndsWithSlash(pathname)
    ensures !Matches(Compile(Urls[0].urlpath), pathname)
    ensures !Matches(Compile(Urls[2].urlpath), pathname)
    ensures Matches(Compile(Urls[1].urlpath), pathname) <==> pathname == "/data/"
  {
    DataRouteMatches(pathname);
    EmptyRouteMatches(pathname);
    RobotsMatches(pathname);
  }

  /** The data pattern matches exactly `/data/`. */
  lemma DataRouteMatches(pathname: string)
    ensures Matches(Compile(Urls[1].urlpath), pathname) <==> pathname == "/data/"
  {
    var d := "/data/";
    DataPiece(d);
    LiteralMatches(d, pathname);
  }

  /** The data route's pattern is plain text. */
  lemma DataPiece(d: string)
    requires d == "/data/"
    ensures Urls[1].urlpath == d
    ensures forall i :: 0 <= i < |d| ==> d[i] != '*' && d[i] != '.'
  {
  }

  /** The empty pattern matches exactly the empty pathname. */
  lemma EmptyRouteMatches(pathname: string)
    ensures Matches(Compile(Urls[2].urlpath), pathname) <==> pathname == ""
  {
    assert Compile(Urls[2].urlpath) == [];
  }

  /** A pattern that starts with a plain literal compiles to that
      literal's tokens followed by the rest's. */
  lemma {:induction false} CompileAppend(lit: string, rest: string)
    requires forall i :: 0 <= i < |lit| ==> lit[i] != '*' && lit[i] != '.'
    ensures Compile(lit + rest) == Compile(lit) + Compile(rest)
    decreases |lit|
  {
    if lit != "" {
      var whole := lit + rest;
      assert whole[0] == lit[0] && whole[1..] == lit[1..] + rest;
      assert Compile(whole) == [Lit(lit[0])] + Compile(whole[1..]);
      CompileAppend(lit[1..], rest);
      assert Compile(lit) == [Lit(lit[0])] + Compile(lit[1..]);
    } else {
      assert lit + rest == rest;
    }
  }

  /** A pattern of two plain literals around a `.` matches the first
      literal, any one character but a line terminator, then the second. */
  lemma DotPattern(a: string, b: string, s: string)
    requires forall i :: 0 <= i < |a| ==> a[i] != '*' && a[i] != '.'
    requires forall i :: 0 <= i < |b| ==> b[i] != '*' && b[i] != '.'
    ensures Matches(Compile(a + "." + b), s) <==>
              |s| == |a| + 1 + |b| && s[..|a|] == a && !LineTerminator(s[|a|]) && s[|a| + 1..] == b
  {
    DotCompile(a, b);
    PrefixMatches(Compile(a), [AnyChar] + Compile(b), a, s);
    if |s| >= |a| {
      DotRest(b, s[|a|..]);
      if s[|a|..] != "" {
        assert s[|a|..][0] == s[|a|] && s[|a|..][1..] == s[|a| + 1..];
      }
    }
  }

  /** Two plain literals around a `.` compile to the first literal's tokens,
      `AnyChar`, then the second's. */
  lemma DotCompile(a: string, b: string)
    requires forall i :: 0 <= i < |a| ==> a[i] != '*' && a[i] != '.'
    ensures Compile(a + "." + b) == Compile(a) + ([AnyChar] + Compile(b))
  {
    assert a + "." + b == a + ("." + b);
    CompileAppend(a, "." + b);
    assert ("." + b)[1..] == b;
  }

  /** `.` followed by a plain literal matches one character that is not a
      line terminator and then the literal. */
  lemma DotRest(b: string, rest: string)
    requires forall i :: 0 <= i < |b| ==> b[i] != '*' && b[i] != '.'
    ensures Matches([AnyChar] + Compile(b), rest) <==>
              |rest| == 1 + |b| && !LineTerminator(rest[0]) && rest[1..] == b
  {
    assert ([AnyChar] + Compile(b))[1..] == Compile(b);
    if rest != "" {
      LiteralMatches(b, rest[1..]);
    }
  }

  /** The robots pattern: its `.` matches any character but a line
      terminator, so it matches `/robots` + one character + `txt`. */
  lemma RobotsMatches(pathname: string)
    ensures Matches(Compile(Urls[0].urlpath), pathname) <==>
              |pathname| == 11 && pathname[..7] == "/robots" && !LineTerminator(pathname[7]) && pathname[8..] == "txt"
  {
    var a, b := "/robots", "txt";
    RobotsPieces(a, b);
    DotPattern(a, b, pathname);
  }

  /** The robots pattern is `/robots`, a `.` and `txt`, neither piece holding
      `*` or `.`. */
  lemma RobotsPieces(a: string, b: string)
    requires a == "/robots" && b == "txt"
    ensures Urls[0].urlpath == a + "." + b && |a| == 7 && |b| == 3
    ensures forall i :: 0 <= i < |a| ==> a[i] != '*' && a[i] != '.'
    ensures forall i :: 0 <= i < |b| ==> b[i] != '*' && b[i] != '.'
  {
  }

  /** A literal prefix: `p + q` matches `s` exactly when `s` starts with
      the literal `lit` that `p` matches and `q` matches the rest. */
  lemma {:induction false} PrefixMatches(p: seq<Token>, q: seq<Token>, lit: string, s: string)
    requires p == Compile(lit)
    requires forall i :: 0 <= i < |lit| ==> lit[i] != '*' && lit[i] != '.'
    ensures Matches(p + q, s) <==> |s| >= |lit| && s[..|lit|] == lit && Matches(q, s[|lit|..])
    decreases |lit|
  {
    if lit != "" {
      assert p == [Lit(lit[0])] + Compile(lit[1..]);
      assert (p + q)[1..] == Compile(lit[1..]) + q;
      if s != "" {
        PrefixMatches(Compile(lit[1..]), q, lit[1..], s[1..]);
        if |s| >= |lit| {
          assert s[1..][..|lit| - 1] == s[..|lit|][1..];
          assert s[1..][|lit| - 1..] == s[|lit|..];
          assert s[..|lit|] == [s[0]] + s[..|lit|][1..];
          assert lit == [lit[0]] + lit[1..];
        }
      }
    } else {
      assert p == [];
      assert p + q == q;
    }
  }

  /** With a trailing `/` and no `static` second segment, the data page,
      the board or the fallback redirect. */
  lemma SlashDecision(pathname: string)
    requires !IsStatic(pathname) && EndsWithSlash(pathname)
    ensures Decide(pathname) ==
              if pathname == "/data/" then Serve(DataPage)
              else if BoardPath(pathname) then Serve(BoardPage)
              else Redirect("/")
  {
    OtherRoutesMiss(pathname);
    assert FirstRoute(pathname, 0) == FirstRoute(pathname, 1);
    if pathname != "/data/" {
      assert FirstRoute(pathname, 1) == FirstRoute(pathname, 2) == FirstRoute(pathname, 3);
      BoardRoutesServeBoard(pathname, 3);
      var r := FirstRoute(pathname, 3);
      if BoardPath(pathname) {
        var n := |Split(pathname, '/')| - 2;
        BoardRouteMatches(n, pathname);
        assert Matches(Compile(Urls[3 + n].urlpath), pathname);
      } else if r.Some? {
        BoardRouteMatches(r.value - 3, pathname);
        assert false;
      }
    }
  }

  /** Every route from `i >= 3` on serves the board. */
  lemma {:induction false} BoardRoutesServeBoard(pathname: string, i: nat)
    requires 3 <= i <= |Urls|
    ensures FirstRoute(pathname, i).Some? ==> Urls[FirstRoute(pathname, i).value].fp == BoardPage
    decreases |Urls| - i
  {
    if i < |Urls| {
      BoardRoutesServeBoard(pathname, i + 1);
      assert Urls[i].fp == BoardPage;
    }
  }

  /** The handler's decisions, case by case: a `static` second segment is
      served from the static directory with the first `/static/` removed; any
      other pathname without a trailing `/` is sent to its `/` form, except
      `/robots.txt` (served) and `/favicon.ico` (sent to `/`); with a
      trailing `/`, `/data/` is the data page, `/` and 1 to 3 non-empty
      segments are the board (the data route coming first), and everything
      else is sent to `/`. */
  lemma DecideSpec(pathname: string)
    ensures IsStatic(pathname) ==> Decide(pathname) == ServeStatic(ReplaceFirst(pathname, "/static/", ""))
    ensures !IsStatic(pathname) && !EndsWithSlash(pathname) && pathname != "/robots.txt" && pathname != "/favicon.ico" ==>
              Decide(pathname) == Redirect(pathname + "/")
    ensures !IsStatic(pathname) && EndsWithSlash(pathname) ==>
              Decide(pathname) ==
                if pathname == "/data/" then Serve(DataPage)
                else if BoardPath(pathname) then Serve(BoardPage)
                else Redirect("/")
  {
    if !IsStatic(pathname) && EndsWithSlash(pathname) {
      SlashDecision(pathname);
    }
  }

  /** The last piece of a split is empty exactly when the string is empty
      or ends with the separator. */
  lemma {:induction false} LastPieceEmpty(s: string, sep: char)
    ensures var parts := Split(s, sep);
            parts[|parts| - 1] == "" <==> s == "" || s[|s| - 1] == sep
    decreases |s|
  {
    if s != "" {
      var t := s[1..];
      var rest := Split(t, sep);
      LastPieceEmpty(t, sep);
      assert s[|s| - 1] == if t == "" then s[0] else t[|t| - 1];
      if s[0] == sep {
        assert Split(s, sep) == [""] + rest;
      } else {
        assert Split(s, sep) == [[s[0]] + rest[0]] + rest[1..];
        if |rest| == 1 {
          OnlyEmptyPiece(t, sep);
        }
      }
    }
  }

  /** Only the empty string splits into the single empty piece. */
  lemma OnlyEmptyPiece(t: string, sep: char)
    ensures Split(t, sep) == [""] ==> t == ""
  {
    if t != "" {
      var rest := Split(t[1..], sep);
      if t[0] == sep {
        assert |Split(t, sep)| == 1 + |rest|;
      } else {
        assert Split(t, sep)[0] == [t[0]] + rest[0];
      }
    }
  }

  /** Without a trailing `/`, no route from `i >= 1` on matches a
      non-empty pathname. */
  lemma {:induction false} NoSlashMisses(pathname: string, i: nat)
    requires pathname != "" && !EndsWithSlash(pathname) && 1 <= i <= |Urls|
    ensures FirstRoute(pathname, i) == None
    decreases |Urls| - i
  {
    if i < |Urls| {
      NoSlashMisses(pathname, i + 1);
      NoSlashMiss(pathname, i);
    }
  }

  /** Without a trailing `/`, no board route matches a non-empty pathname:
      its last piece is not empty. */
  lemma NoSlashBoardMiss(pathname: string, n: nat)
    requires pathname != "" && !EndsWithSlash(pathname) && n <= 3
    ensures !Matches(Compile(Urls[3 + n].urlpath), pathname)
  {
    LastPieceEmpty(pathname, '/');
    BoardRouteMatches(n, pathname);
  }

  /** Without a trailing `/`, route `i >= 1` does not match a non-empty
      pathname. */
  lemma NoSlashMiss(pathname: string, i: nat)
    requires pathname != "" && !EndsWithSlash(pathname) && 1 <= i < |Urls|
    ensures !Matches(Compile(Urls[i].urlpath), pathname)
  {
    if i >= 3 {
      var n := i - 3;
      NoSlashBoardMiss(pathname, n);
      assert Urls[i] == Urls[3 + n];
    } else if i == 2 {
      EmptyRouteMatches(pathname);
    } else {
      DataRouteMatches(pathname);
    }
  }

  /** Without a trailing `/` only the robots pattern can match a non-empty
      pathname. */
  lemma NoSlashRoutes(pathname: string)
    requires pathname != "" && !EndsWithSlash(pathname)
    ensures FirstRoute(pathname, 0) == if Matches(Compile(Urls[0].urlpath), pathname) then Some(0) else None
  {
    NoSlashMisses(pathname, 1);
  }

  /** A pathname of one segment without `/` that is not `static`. */
  lemma SingleSegment(name: string)
    requires '/' !in name && name != "static"
    ensures Split("/" + name, '/') == ["", name]
    ensures !IsStatic("/" + name)
  {
    assert "/" + name == [] + ['/'] + name;
    SplitFree(name, '/');
    SplitAround([], name, '/');
  }

  /** `/robots.txt` is one segment, not static, of the robots shape. */
  lemma RobotsName(pathname: string)
    requires pathname == "/robots.txt"
    ensures pathname != "" && !EndsWithSlash(pathname) && !IsStatic(pathname)
    ensures Matches(Compile(Urls[0].urlpath), pathname)
  {
    var name := pathname[1..];
    assert pathname == "/" + name;
    SingleSegment(name);
    RobotsShape(pathname);
    RobotsMatches(pathname);
  }

  /** The characters of `/robots.txt` around its `.`. */
  lemma RobotsShape(pathname: string)
    requires pathname == "/robots.txt"
    ensures |pathname| == 11 && pathname[..7] == "/robots" && !LineTerminator(pathname[7]) && pathname[8..] == "txt"
  {
    assert pathname[7] == '.';
  }

  /** `/favicon.ico` is one segment, not static, not of the robots shape. */
  lemma FaviconName(pathname: string)
    requires pathname == "/favicon.ico"
    ensures pathname != "" && !EndsWithSlash(pathname) && !IsStatic(pathname)
    ensures !Matches(Compile(Urls[0].urlpath), pathname)
  {
    var name := pathname[1..];
    assert pathname == "/" + name;
    SingleSegment(name);
    RobotsMatches(pathname);
  }

  /** A non-empty, non-static pathname without a trailing `/` is sent to
      its `/` form unless excluded; an excluded one is served by the robots
      route when its pattern matches and is sent to `/` otherwise. */
  lemma NoSlashDecision(pathname: string)
    requires pathname != "" && !EndsWithSlash(pathname) && !IsStatic(pathname)
    ensures Decide(pathname) ==
              if pathname !in SlashRedirectExclude then Redirect(pathname + "/")
              else if Matches(Compile(Urls[0].urlpath), pathname) then Serve(Robots)
              else Redirect("/")
  {
    NoSlashRoutes(pathname);
  }

  /** The two pathnames kept from the trailing-slash redirect: robots is
      served, and the favicon matches no route and is sent to `/`. */
  lemma ExcludedPaths(pathname: string)
    requires pathname in SlashRedirectExclude
    ensures Decide(pathname) == if pathname == "/robots.txt" then Serve(Robots) else Redirect("/")
  {
    if pathname == "/robots.txt" {
      RobotsName(pathname);
    } else {
      FaviconName(pathname);
    }
    NoSlashDecision(pathname);
  }

  /** The root is the board. */
  lemma RootIsBoard()
    ensures Decide("/") == Serve(BoardPage)
  {
    assert Split("/", '/') == ["", ""] by {
      SplitAround("", "", '/');
      assert "" + ['/'] + "" == "/";
    }
    DecideSpec("/");
  }

  /** The empty pathname is sent to `/` before the route table is tried,
      so the table's empty route never serves anything. */
  lemma EmptyPathname()
    ensures Decide("") == Redirect("/")
  {
    assert Split("", '/') == [""];
  }

  /** Every redirect ends at a served file: a redirect goes to `/`, which
      is the board, or to the pathname with `/` added, whose own decision is
      never a trailing-slash redirect, so it is served or sent to `/`. */
  lemma RedirectsSettle(pathname: string)
    ensures Decide(pathname).Redirect? ==>
              var next := Decide(Decide(pathname).location);
              !next.Redirect? || next == Redirect("/")
    ensures Decide(pathname).Redirect? ==> EndsWithSlash(Decide(pathname).location)
  {
    RootIsBoard();
    var p := pathname + "/";
    DecideSpec(p);
  }

  /** Segments joined with `/` between an opening and a closing `/` split
      back into an empty piece, the segments, and an empty piece. */
  lemma SlashJoined(segs: seq<string>)
    requires segs != []
    requires forall i :: 0 <= i < |segs| ==> '/' !in segs[i]
    ensures Split("/" + Join(segs, '/') + "/", '/') == [""] + segs + [""]
  {
    var parts := [""] + segs + [""];
    JoinFramed(segs);
    forall i | 0 <= i < |parts| ensures '/' !in parts[i] {
      if 0 < i < |parts| - 1 {
        assert parts[i] == segs[i - 1];
      }
    }
    SplitJoin(parts, '/');
  }

  /** Joining with an empty piece on each side puts a `/` on each side. */
  lemma JoinFramed(segs: seq<string>)
    requires segs != []
    ensures Join([""] + segs + [""], '/') == "/" + Join(segs, '/') + "/"
  {
    var front := [""] + segs;
    assert [""] + segs + [""] == front + [""];
    JoinSnoc(front, "", '/');
    assert front[1..] == segs;
    assert Join(front, '/') == "" + ['/'] + Join(segs, '/');
  }

  /** The data page's pathname is the one segment `data`. */
  lemma DataPath(segs: seq<string>)
    requires segs != []
    requires forall i :: 0 <= i < |segs| ==> '/' !in segs[i]
    ensures "/" + Join(segs, '/') + "/" == "/data/" <==> segs == ["data"]
  {
    FramedOne(segs, "data");
    assert "/data/" == "/" + "data" + "/";
  }

  /** Segments between slashes frame one segment `d` exactly when they are
      that one segment. */
  lemma FramedOne(segs: seq<string>, d: string)
    requires segs != []
    requires forall i :: 0 <= i < |segs| ==> '/' !in segs[i]
    requires '/' !in d
    ensures "/" + Join(segs, '/') + "/" == "/" + d + "/" <==> segs == [d]
  {
    var j := Join(segs, '/');
    FramedEqual(j, d);
    if j == d {
      SplitJoin(segs, '/');
      SplitFree(d, '/');
      assert segs == Split(j, '/') == [d];
    }
  }

  /** Framing with slashes is injective. */
  lemma FramedEqual(j: string, d: string)
    ensures "/" + j + "/" == "/" + d + "/" <==> j == d
  {
    if "/" + j + "/" == "/" + d + "/" {
      assert j == ("/" + j + "/")[1..|j| + 1];
      assert d == ("/" + d + "/")[1..|d| + 1];
    }
  }

  /** Board-page URLs of the board script: 1 to 3 non-empty segments
      without `/` joined with `/` between slashes are static exactly when the
      first segment is `static`; otherwise they are the board, except the
      one segment `data`, which is the data page. */
  lemma BoardUrls(segs: seq<string>)
    requires 1 <= |segs| <= 3
    requires forall i :: 0 <= i < |segs| ==> segs[i] != "" && '/' !in segs[i]
    ensures IsStatic("/" + Join(segs, '/') + "/") <==> segs[0] == "static"
    ensures segs[0] != "static" ==>
              Decide("/" + Join(segs, '/') + "/") == if segs == ["data"] then Serve(DataPage) else Serve(BoardPage)
  {
    var p := "/" + Join(segs, '/') + "/";
    BoardUrlShape(segs);
    DataPath(segs);
    if segs[0] != "static" {
      SlashDecision(p);
    }
  }

  /** Such a URL ends in `/`, is a board path, and its second piece is its
      first segment. */
  lemma BoardUrlShape(segs: seq<string>)
    requires 1 <= |segs| <= 3
    requires forall i :: 0 <= i < |segs| ==> segs[i] != "" && '/' !in segs[i]
    ensures EndsWithSlash("/" + Join(segs, '/') + "/")
    ensures BoardPath("/" + Join(segs, '/') + "/")
    ensures IsStatic("/" + Join(segs, '/') + "/") <==> segs[0] == "static"
  {
    var p := "/" + Join(segs, '/') + "/";
    SlashJoined(segs);
    FramedShape(p, segs);
  }

  /** A pathname split into an empty piece, the segments and an empty piece
      is a board path whose second piece is the first segment. */
  lemma FramedShape(p: string, segs: seq<string>)
    requires 1 <= |segs| <= 3
    requires forall i :: 0 <= i < |segs| ==> segs[i] != ""
    requires Split(p, '/') == [""] + segs + [""]
    ensures BoardPath(p)
    ensures IsStatic(p) <==> segs[0] == "static"
  {
    var parts := Split(p, '/');
    assert parts[1] == segs[0];
    forall i | 0 < i < |parts| - 1 ensures parts[i] != "" {
      assert parts[i] == segs[i - 1];
    }
  }

  // -------------------------------------------------------- content types

  /** The extensions `getContentType` knows. */
  const ContentTypes: map<string, string> := map[
    ".html" := "text/html",
    ".js" := "application/javascript",
    ".css" := "text/css",
    ".txt" := "text/plain",
    ".json" := "application/json",
    ".png" := "image/png",
    ".jpg" := "image/jpeg",
    ".svg" := "image/svg+xml"
  ]

  const OctetStream: string := "application/octet-stream"

  /** `getContentType(ext)`: the table's type, or the generic binary type
      for any other extension (every type in the table is truthy). */
  function GetContentType(ext: string): (t: string)
    ensures ext in ContentTypes ==> t == ContentTypes[ext]
    ensures t == OctetStream <==> ext !in ContentTypes
    ensures t != ""
  {
    if ext in ContentTypes then ContentTypes[ext] else OctetStream
  }
}
