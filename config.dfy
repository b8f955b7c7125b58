/** Configuration resolution: the built-in defaults, the overlay of the
    `default` section, the per-page configuration, the page-name pattern and
    the connection string. */
module Config {
  import opened PyStr

  /** A configuration value: the built-in defaults are Python strings, ints
      and `None`; every value read from the configuration file is a string. */
  datatype Setting = Str(s: string) | Num(n: int) | NoValue

  /** Python truthiness of a setting. */
  predicate Truthy(v: Setting)
  {
    match v
    case Str(s) => s != ""
    case Num(n) => n != 0
    case NoValue => false
  }

  /** `'{}'.format(v)`. */
  function Render(v: Setting): string
  {
    match v
    case Str(s) => s
    case Num(n) => IntToString(n)
    case NoValue => "None"
  }

  /** The keys of the built-in default dictionary, in its iteration order. */
  const DefaultKeys: seq<string> :=
    ["host", "port", "user", "password", "dbname", "file", "font_name", "font_size"]

  /** The built-in default dictionary. */
  const DefaultConfig: map<string, Setting> := map[
    "host" := Str("localhost"),
    "port" := Num(5432),
    "user" := Str("postgres"),
    "password" := NoValue,
    "dbname" := Str("postgres"),
    "file" := NoValue,
    "font_name" := Str("Liberation Sans"),
    "font_size" := Num(10)
  ]

  /** The built-in dictionary has no `query` key, so neither has any
      resolved default configuration. */
  lemma QueryIsNoDefault()
    ensures "query" !in DefaultConfig
  {
  }

  /** The value a default key ends up with once the `default` section is applied. */
  function DefaultSetting(section: map<string, string>, key: string): Setting
    requires key in DefaultConfig
  {
    if key in section then Str(section[key]) else DefaultConfig[key]
  }

  /** The loop over the built-in keys: each one the `default` section sets is
      replaced by the section's string; keys the section adds are ignored. */
  method ApplyDefaultSection(section: map<string, string>) returns (cfg: map<string, Setting>)
    ensures cfg.Keys == DefaultConfig.Keys
    ensures forall k :: k in DefaultConfig && k in section ==> cfg[k] == Str(section[k])
    ensures forall k :: k in DefaultConfig && k !in section ==> cfg[k] == DefaultConfig[k]
  {
    assert DefaultConfig.Keys == set k | k in DefaultKeys;
    cfg := DefaultConfig;
    for i := 0 to |DefaultKeys|
      invariant cfg.Keys == DefaultConfig.Keys
      invariant forall k :: k in cfg ==>
        cfg[k] == if k in section && k in DefaultKeys[..i] then Str(section[k]) else DefaultConfig[k]
    {
      var x := DefaultKeys[i];
      assert forall k :: k in DefaultKeys[..i + 1] <==> k in DefaultKeys[..i] || k == x;
      if x in section {
        cfg := cfg[x := Str(section[x])];
      }
    }
    assert DefaultKeys[..|DefaultKeys|] == DefaultKeys;
  }

  /** The page loop: a copy of the defaults, extended by every key of the
      page section that is not a default key. A page cannot change a default. */
  method ResolvePage(defaults: map<string, Setting>, page: map<string, string>)
    returns (cfg: map<string, Setting>)
    ensures cfg.Keys == defaults.Keys + page.Keys
    ensures forall k :: k in defaults ==> cfg[k] == defaults[k]
    ensures forall k :: k in page && k !in defaults ==> cfg[k] == Str(page[k])
  {
    cfg := defaults;
    var todo := page.Keys - defaults.Keys;
    while todo != {}
      invariant todo <= page.Keys - defaults.Keys
      invariant cfg.Keys == defaults.Keys + (page.Keys - defaults.Keys - todo)
      invariant forall k :: k in defaults ==> cfg[k] == defaults[k]
      invariant forall k :: k in cfg && k !in defaults ==> cfg[k] == Str(page[k])
      decreases todo
    {
      var x :| x in todo;
      cfg := cfg[x := Str(page[x])];
      todo := todo - {x};
    }
  }

  /** A resolved page has a query when the key is present and truthy. */
  predicate HasQuery(cfg: map<string, Setting>)
  {
    "query" in cfg && Truthy(cfg["query"])
  }

  // ---------------------------------------------------------------------
  // The directory part of the output path, `os.path.dirname` on POSIX

  predicate NoSlash(p: string)
  {
    forall k :: 0 <= k < |p| ==> p[k] != '/'
  }

  predicate AllSlashes(p: string)
  {
    forall k :: 0 <= k < |p| ==> p[k] == '/'
  }

  /** The position just after the last `/`, or 0 when there is none. */
  function SlashEnd(p: string): (i: nat)
    ensures i <= |p|
    ensures i > 0 ==> p[i - 1] == '/'
    ensures forall k :: i <= k < |p| ==> p[k] != '/'
    decreases |p|
  {
    if p == [] then 0
    else if p[|p| - 1] == '/' then |p|
    else SlashEnd(p[..|p| - 1])
  }

  /** `p.rstrip('/')`. */
  function StripSlashes(p: string): (r: string)
    ensures |r| <= |p| && r == p[..|r|]
    ensures forall k :: |r| <= k < |p| ==> p[k] == '/'
    ensures r == [] || r[|r| - 1] != '/'
    decreases |p|
  {
    if p != [] && p[|p| - 1] == '/' then StripSlashes(p[..|p| - 1]) else p
  }

  /** `os.path.dirname(p)`: everything before the last `/`, without its
      trailing slashes unless it is made of slashes only. It is a prefix of the
      path, and it is empty exactly when the path has no `/` at all. */
  function DirName(p: string): (d: string)
    ensures |d| <= |p| && d == p[..|d|]
    ensures d == [] <==> NoSlash(p)
  {
    var head := p[..SlashEnd(p)];
    if head != [] && !AllSlashes(head) then
      var r := StripSlashes(head);
      assert r == [] ==> AllSlashes(head);
      r
    else head
  }

  /** A bare file name has no directory part; a path with one has. */
  lemma DirNameExamples()
    ensures DirName("out.xlsx") == ""
    ensures DirName("/tmp/out.xlsx") != ""
  {
    assert "/tmp/out.xlsx"[0] == '/';
  }

  // ---------------------------------------------------------------------
  // The page-name pattern `^([\w\- ]+)$`

  /** `\w`, approximated by its ASCII members. */
  predicate IsWordChar(c: char)
  {
    ('a' <= c <= 'z') || ('A' <= c <= 'Z') || ('0' <= c <= '9') || c == '_'
  }

  /** A character of the class `[\w\- ]`. */
  predicate IsNameChar(c: char)
  {
    IsWordChar(c) || c == '-' || c == ' '
  }

  /** A non-empty run of name characters. */
  predicate IsSimpleName(s: string)
  {
    |s| > 0 && forall i :: 0 <= i < |s| ==> IsNameChar(s[i])
  }

  /** How far the greedy `[\w\- ]+` reaches from the start of `s`. */
  function NameRun(s: string): (n: nat)
    ensures n <= |s|
    ensures forall i :: 0 <= i < n ==> IsNameChar(s[i])
    ensures n < |s| ==> !IsNameChar(s[n])
    decreases |s|
  {
    if s != [] && IsNameChar(s[0]) then 1 + NameRun(s[1..]) else 0
  }

  /** `re.search('^([\w\- ]+)$', name)` succeeds: the run of name characters
      is non-empty and is followed by the end of the string or by a newline
      that ends it, where Python's `$` also matches. */
  predicate MatchesPageName(name: string)
  {
    var n := NameRun(name);
    n > 0 && (n == |name| || (n == |name| - 1 && name[n] == '\n'))
  }

  /** The names the pattern accepts: a run of name characters, optionally
      followed by one newline. */
  lemma PageNamePattern(name: string)
    ensures MatchesPageName(name) <==>
      IsSimpleName(name) ||
      (|name| >= 2 && name[|name| - 1] == '\n' && IsSimpleName(name[..|name| - 1]))
  {
  }

  // ---------------------------------------------------------------------
  // The connection string

  function Quoted(s: string): string { "'" + s + "'" }

  /** `host='H' port=P dbname='D' user='U' password='W'`, with `W` empty when
      the password is falsy. */
  function Dsn(host: Setting, port: Setting, dbname: Setting, user: Setting, password: Setting): string
  {
    "host='" + Render(host) + "' port=" + Render(port) + " dbname='" + Render(dbname)
      + "' user='" + Render(user) + "'"
      + " password='" + (if Truthy(password) then Render(password) else "") + "'"
  }

  /** `fields` joined by single spaces. */
  function JoinSpaced(fields: seq<string>): string
    decreases |fields|
  {
    if fields == [] then ""
    else if |fields| == 1 then fields[0]
    else JoinSpaced(fields[..|fields| - 1]) + " " + fields[|fields| - 1]
  }

  /** The connection string is the five `key=value` fields in a fixed order,
      every one of them present whatever its value. */
  lemma DsnIsFieldList(host: Setting, port: Setting, dbname: Setting, user: Setting, password: Setting)
    ensures Dsn(host, port, dbname, user, password) == JoinSpaced([
      "host=" + Quoted(Render(host)),
      "port=" + Render(port),
      "dbname=" + Quoted(Render(dbname)),
      "user=" + Quoted(Render(user)),
      "password=" + Quoted(if Truthy(password) then Render(password) else "")])
  {
    var w := if Truthy(password) then Render(password) else "";
    FormatIsFieldList(Render(host), Render(port), Render(dbname), Render(user), w);
  }

  /** The format strings of the connection string, on plain strings. */
  lemma FormatIsFieldList(h: string, p: string, dd: string, u: string, w: string)
    ensures "host='" + h + "' port=" + p + " dbname='" + dd + "' user='" + u + "'" + " password='" + w + "'"
      == JoinSpaced(["host=" + Quoted(h), "port=" + p, "dbname=" + Quoted(dd), "user=" + Quoted(u), "password=" + Quoted(w)])
  {
    var a, b, c, d, e := "host=" + Quoted(h), "port=" + p, "dbname=" + Quoted(dd), "user=" + Quoted(u), "password=" + Quoted(w);
    JoinFive(a, b, c, d, e);
    assert a == "host='" + h + "'";
    assert c == "dbname='" + dd + "'";
    assert d == "user='" + u + "'";
    assert e == "password='" + w + "'";
    assert "host='" + h + "' port=" + p == a + " " + b;
    assert "host='" + h + "' port=" + p + " dbname='" + dd + "'" == a + " " + b + " " + c;
    assert "host='" + h + "' port=" + p + " dbname='" + dd + "' user='" + u + "'" == a + " " + b + " " + c + " " + d;
  }

  lemma JoinFive(a: string, b: string, c: string, d: string, e: string)
    ensures JoinSpaced([a, b, c, d, e]) == a + " " + b + " " + c + " " + d + " " + e
  {
    var f := [a, b, c, d, e];
    assert f[..4] == [a, b, c, d];
    assert f[..4][..3] == [a, b, c];
    assert f[..4][..3][..2] == [a, b];
    assert [a, b][..1] == [a];
    assert JoinSpaced([a, b]) == a + " " + b;
    assert JoinSpaced([a, b, c]) == a + " " + b + " " + c;
    assert JoinSpaced([a, b, c, d]) == a + " " + b + " " + c + " " + d;
  }

  /** A truthy password is written out and is never empty; a falsy one
      (`None`, the empty string) leaves the password field empty. */
  lemma DsnPassword(host: Setting, port: Setting, dbname: Setting, user: Setting, password: Setting)
    ensures var dsn := Dsn(host, port, dbname, user, password);
            var tail := if Truthy(password) then " password='" + Render(password) + "'" else " password=''";
            |tail| <= |dsn| && dsn[|dsn| - |tail|..] == tail
    ensures Truthy(password) ==> Render(password) != ""
  {
    var w := if Truthy(password) then Render(password) else "";
    FormatTail(Render(host), Render(port), Render(dbname), Render(user), w);
  }

  /** The format string of the connection string ends with the password field. */
  lemma FormatTail(h: string, p: string, dd: string, u: string, w: string)
    ensures var dsn := "host='" + h + "' port=" + p + " dbname='" + dd + "' user='" + u + "'" + " password='" + w + "'";
            var tail := " password='" + w + "'";
            |tail| <= |dsn| && dsn[|dsn| - |tail|..] == tail
  {
    var head := "host='" + h + "' port=" + p + " dbname='" + dd + "' user='" + u + "'";
    var tail := " password='" + w + "'";
    assert head + " password='" + w + "'" == head + tail;
    assert (head + tail)[|head|..] == tail;
  }
}
