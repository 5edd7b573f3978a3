/**
 * The dotenv scanner and editor (internal/managed/configuration_files.go), with the quoting of
 * new values (internal/managed/deployment_files.go).
 */
module Dotenv {
  import opened Strings

  // ---- Go's string helpers ------------------------------------------------------

  /** Unicode white space, as `strings.TrimSpace` has it. */
  predicate IsSpace(c: char) {
    var n := c as int;
    9 <= n <= 13 || n == 0x20 || n == 0x85 || n == 0xA0 || n == 0x1680 || 0x2000 <= n <= 0x200A
    || n == 0x2028 || n == 0x2029 || n == 0x202F || n == 0x205F || n == 0x3000
  }

  function TrimLeft(s: string): string {
    if s != "" && IsSpace(s[0]) then TrimLeft(s[1..]) else s
  }

  function TrimRight(s: string): string {
    if s != "" && IsSpace(s[|s| - 1]) then TrimRight(s[..|s| - 1]) else s
  }

  function Trim(s: string): string { TrimRight(TrimLeft(s)) }

  function TrimPrefix(s: string, prefix: string): string {
    if prefix <= s then s[|prefix|..] else s
  }

  /** The text before and after the first separator. */
  function Cut(s: string, separator: char): Option<(string, string)> {
    if s == "" then None
    else if s[0] == separator then Some(("", s[1..]))
    else match Cut(s[1..], separator)
      case None => None
      case Some((before, after)) => Some(([s[0]] + before, after))
  }

  // ---- The scanner ----------------------------------------------------------------

  datatype Assignment = Assignment(name: string, value: string)

  /** The assignment a line starts, if any; comments and lines without `=` or `:` start none. */
  function Assigned(line: string): Option<Assignment> {
    var t := Trim(line);
    if t == "" || t[0] == '#' then None
    else
      var u := Trim(TrimPrefix(t, "export "));
      match if Cut(u, '=').Some? then Cut(u, '=') else Cut(u, ':')
      case None => None
      case Some((name, rest)) => Some(Assignment(Trim(name), Trim(rest)))
  }

  predicate IsQuoted(value: string) {
    value != "" && (value[0] == '\'' || value[0] == '"')
  }

  /** An unescaped quote appears in the text; a backslash escapes within one line only. */
  predicate Closes(text: string, quote: char, escaped: bool) {
    text != ""
    && (if escaped then Closes(text[1..], quote, false)
        else if text[0] == '\\' then Closes(text[1..], quote, true)
        else text[0] == quote || Closes(text[1..], quote, false))
  }

  /** How many of the lines an open quote still takes, and whether it is closed in them. */
  function Quote(lines: seq<string>, quote: char): (r: (nat, bool))
    ensures r.0 <= |lines|
    ensures lines != [] ==> r.0 >= 1
  {
    if lines == [] then (0, false)
    else if Closes(lines[0], quote, false) then (1, true)
    else var rest := Quote(lines[1..], quote); (1 + rest.0, rest.1)
  }

  /** Length of the assignment that starts the lines, and whether its quote closes. */
  function Extent(lines: seq<string>, value: string): (r: (nat, bool))
    requires lines != []
    ensures 1 <= r.0 <= |lines|
  {
    if !IsQuoted(value) || Closes(value[1..], value[0], false) then (1, true)
    else var rest := Quote(lines[1..], value[0]); (1 + rest.0, rest.1)
  }

  datatype Block = Block(name: string, text: seq<string>, closed: bool)

  /** All assignments in order, multi-line quoted values as one block each. */
  function Scan(lines: seq<string>): seq<Block>
    decreases |lines|
  {
    if lines == [] then []
    else
      match Assigned(lines[0])
      case None => Scan(lines[1..])
      case Some(a) =>
        var (n, closed) := Extent(lines, a.value);
        [Block(a.name, lines[..n], closed)] + Scan(lines[n..])
  }

  datatype Place = Place(start: nat, length: nat)

  /** The last assignment of a key. */
  function Locate(lines: seq<string>, key: string): (r: Option<Place>)
    ensures r.Some? ==> r.value.start + r.value.length <= |lines| && r.value.length >= 1
    decreases |lines|
  {
    if lines == [] then None
    else
      match Assigned(lines[0])
      case None => Shifted(Locate(lines[1..], key), 1)
      case Some(a) =>
        var (n, closed) := Extent(lines, a.value);
        match Locate(lines[n..], key)
        case Some(p) => Some(Place(n + p.start, p.length))
        case None => if a.name == key then Some(Place(0, n)) else None
  }

  function Shifted(p: Option<Place>, n: nat): Option<Place> {
    match p
    case None => None
    case Some(q) => Some(Place(q.start + n, q.length))
  }

  function Later(i: nat, p: Option<Place>, otherwise: Option<Place>): Option<Place> {
    match p
    case Some(q) => Some(Place(i + q.start, q.length))
    case None => otherwise
  }

  function Range(start: int, end: int): Option<Place>
    requires start == -1 == end || 0 <= start <= end
  {
    if start < 0 then None else Some(Place(start, end - start + 1))
  }

  lemma LocateStep(lines: seq<string>, i: nat, key: string)
    requires i < |lines|
    ensures match Assigned(lines[i])
            case None => Later(i, Locate(lines[i..], key), None) == Later(i + 1, Locate(lines[i + 1..], key), None)
            case Some(a) =>
              var n := Extent(lines[i..], a.value).0;
              Later(i, Locate(lines[i..], key), None)
              == Later(i + n, Locate(lines[i + n..], key), if a.name == key then Some(Place(i, n)) else None)
    ensures Locate(lines[i..], key).None? <==>
              match Assigned(lines[i])
              case None => Locate(lines[i + 1..], key).None?
              case Some(a) => a.name != key && Locate(lines[i + Extent(lines[i..], a.value).0..], key).None?
  {
    hide Assigned, Extent;
    assert lines[i..][1..] == lines[i + 1..];
    if Assigned(lines[i]).Some? {
      var n := Extent(lines[i..], Assigned(lines[i]).value.value).0;
      assert lines[i..][n..] == lines[i + n..];
    }
  }

  /** `dotenvDefinition` of the source: first and last line of the effective assignment, or -1. */
  method Definition(lines: seq<string>, key: string) returns (start: int, end: int)
    ensures match Locate(lines, key)
            case None => start == -1 && end == -1
            case Some(p) => start == p.start && end == p.start + p.length - 1
  {
    hide Assigned, Extent, Closes, IsQuoted, Quote, Locate;
    start, end := -1, -1;
    var i := 0;
    assert lines[0..] == lines;
    while i < |lines|
      invariant 0 <= i <= |lines|
      invariant start == -1 == end || 0 <= start <= end < i
      invariant Locate(lines, key) == Later(i, Locate(lines[i..], key), Range(start, end))
    {
      var a := Assigned(lines[i]);
      LocateStep(lines, i, key);
      if a.None? {
        i := i + 1;
        continue;
      }
      var first := i;
      i := LastLine(lines, first, a.value.value);
      if a.value.name == key {
        start, end := first, i;
      }
      i := i + 1;
    }
    NothingLeft(key);
  }

  lemma NothingLeft(key: string)
    ensures Locate([], key) == None
  {
  }

  /** The inner loop of the source: the line on which an assignment's value ends. */
  method LastLine(lines: seq<string>, first: nat, value: string) returns (i: nat)
    requires first < |lines|
    ensures i == first + Extent(lines[first..], value).0 - 1
  {
    i := first;
    if IsQuoted(value) {
      assert lines[first..][1..] == lines[first + 1..];
      var closed := ClosesIn(value[1..], value[0]);
      while !closed && i + 1 < |lines|
        invariant first <= i < |lines|
        invariant Extent(lines[first..], value).0 ==
                  i - first + 1 + (if closed then 0 else Quote(lines[i + 1..], value[0]).0)
      {
        i := i + 1;
        assert lines[i..][1..] == lines[i + 1..];
        closed := ClosesIn(lines[i], value[0]);
      }
    }
  }

  /** The character loop of the source. */
  method ClosesIn(text: string, quote: char) returns (closed: bool)
    ensures closed == Closes(text, quote, false)
  {
    var escaped := false;
    for j := 0 to |text|
      invariant Closes(text, quote, false) == Closes(text[j..], quote, escaped)
    {
      assert text[j..][1..] == text[j + 1..];
      if escaped {
        escaped := false;
        continue;
      }
      if text[j] == '\\' {
        escaped := true;
        continue;
      }
      if text[j] == quote {
        return true;
      }
    }
    return false;
  }

  // ---- The editor --------------------------------------------------------------------

  function Hex(n: int): char
    requires 0 <= n < 16
  {
    if n < 10 then '0' + n as char else 'a' + (n - 10) as char
  }

  function HexDigits(n: int, width: nat): string
    requires n >= 0
    decreases width
  {
    if width == 0 then "" else HexDigits(n / 16, width - 1) + [Hex(n % 16)]
  }

  /** One character as `strconv.Quote` writes it. */
  function Escape(c: char, printable: char -> bool): string {
    var n := c as int;
    if c == '"' || c == '\\' then ['\\', c]
    else if 0x20 <= n < 0x7F || (n > 0x7F && printable(c)) then [c]
    else if n == 7 then "\\a"
    else if n == 8 then "\\b"
    else if n == 12 then "\\f"
    else if n == 10 then "\\n"
    else if n == 13 then "\\r"
    else if n == 9 then "\\t"
    else if n == 11 then "\\v"
    else if n < 0x20 || n == 0x7F then "\\x" + HexDigits(n, 2)
    else if n < 0x10000 then "\\u" + HexDigits(n, 4)
    else "\\U" + HexDigits(n, 8)
  }

  function Escaped(s: string, printable: char -> bool): string {
    if s == "" then "" else Escape(s[0], printable) + Escaped(s[1..], printable)
  }

  function DoubleDollars(s: string): string {
    if s == "" then "" else (if s[0] == '$' then "$$" else [s[0]]) + DoubleDollars(s[1..])
  }

  /** `dotenvLiteral` of the source. */
  function Literal(value: string, printable: char -> bool): string {
    "\"" + Escaped(DoubleDollars(value), printable) + "\""
  }

  function Encoded(key: string, value: string, printable: char -> bool): string {
    key + "=" + Literal(value, printable)
  }

  /** `setDotenvValue` of the source. */
  method SetValue(content: string, key: string, value: string, printable: char -> bool) returns (r: string)
    ensures r == Set(content, key, Encoded(key, value, printable))
  {
    hide Split, Join, Locate, Encoded;
    var encoded := Encoded(key, value, printable);
    var lines := Split(content, '\n');
    var start, end := Definition(lines, key);
    if start >= 0 {
      lines := lines[..start] + [encoded] + lines[end + 1..];
      return Join(lines, '\n');
    }
    r := content;
    if r != "" && r[|r| - 1] != '\n' {
      r := r + "\n";
    }
    r := r + encoded + "\n";
  }

  function Set(content: string, key: string, encoded: string): string {
    var lines := Split(content, '\n');
    match Locate(lines, key)
    case Some(p) => Join(lines[..p.start] + [encoded] + lines[p.start + p.length..], '\n')
    case None => (if content != "" && content[|content| - 1] != '\n' then content + "\n" else content) + encoded + "\n"
  }

  // ---- What scanning an edited file finds -----------------------------------------------

  predicate AllClosed(blocks: seq<Block>) {
    forall b :: b in blocks ==> b.closed
  }

  /** The last assignment of each name. */
  function Effective(blocks: seq<Block>): map<string, seq<string>> {
    if blocks == [] then map[]
    else map[blocks[0].name := blocks[0].text] + Effective(blocks[1..])
  }

  lemma {:induction false} EffectiveConcat(a: seq<Block>, b: seq<Block>)
    ensures Effective(a + b) == Effective(a) + Effective(b)
  {
    if a == [] {
      assert a + b == b;
    } else {
      assert (a + b)[1..] == a[1..] + b;
      EffectiveConcat(a[1..], b);
      hide Effective;
      MapsAssociate(map[a[0].name := a[0].text], Effective(a[1..]), Effective(b));
    }
  }

  lemma MapsAssociate<K, V>(a: map<K, V>, b: map<K, V>, c: map<K, V>)
    ensures a + (b + c) == (a + b) + c
  {
  }

  lemma {:induction false} EffectiveNames(blocks: seq<Block>, key: string)
    ensures key in Effective(blocks) <==> exists b :: b in blocks && b.name == key
  {
    if blocks != [] {
      EffectiveNames(blocks[1..], key);
      assert blocks == [blocks[0]] + blocks[1..];
    }
  }

  lemma {:induction false} QuoteIsLocal(a: seq<string>, b: seq<string>, quote: char)
    ensures Quote(a, quote).1 ==> Quote(a + b, quote) == Quote(a, quote)
    ensures !Quote(a, quote).1 ==> Quote(a, quote).0 == |a|
    ensures !Quote(a, quote).1 ==> Quote(a + b, quote) == (|a| + Quote(b, quote).0, Quote(b, quote).1)
  {
    if a == [] {
      assert a + b == b;
    } else {
      assert (a + b)[1..] == a[1..] + b;
      QuoteIsLocal(a[1..], b, quote);
    }
  }

  lemma ExtentIsLocal(a: seq<string>, b: seq<string>, value: string)
    requires a != []
    ensures Extent(a, value).1 ==> Extent(a + b, value) == Extent(a, value)
    ensures !Extent(a, value).1 ==> IsQuoted(value) && Extent(a, value).0 == |a|
    ensures !Extent(a, value).1 ==> Extent(a + b, value) == (|a| + Quote(b, value[0]).0, Quote(b, value[0]).1)
  {
    hide Quote, Closes;
    assert (a + b)[1..] == a[1..] + b;
    if IsQuoted(value) {
      QuoteIsLocal(a[1..], b, value[0]);
    }
  }

  lemma FirstExtent(lines: seq<string>, value: string)
    requires lines != []
    ensures var (n, closed) := Extent(lines, value);
            Extent(lines[..n], value) == (n, closed) && (!closed ==> n == |lines|)
  {
    hide Closes;
    var (n, closed) := Extent(lines, value);
    assert lines[..n] + lines[n..] == lines;
    ExtentIsLocal(lines[..n], lines[n..], value);
    ExtentIsLocal(lines, [], value);
    if !closed {
      assert lines[..n] == lines;
    }
  }

  lemma ScanStep(lines: seq<string>)
    requires lines != [] && Assigned(lines[0]).Some?
    ensures var a, (n, closed) := Assigned(lines[0]).value, Extent(lines, Assigned(lines[0]).value.value);
            Scan(lines) == [Block(a.name, lines[..n], closed)] + Scan(lines[n..])
  {
    hide Assigned, Extent;
  }

  /** The first assignment's lines alone scan to its block. */
  lemma FirstBlock(lines: seq<string>)
    requires lines != [] && Assigned(lines[0]).Some?
    ensures var a, (n, closed) := Assigned(lines[0]).value, Extent(lines, Assigned(lines[0]).value.value);
            && Scan(lines) == [Block(a.name, lines[..n], closed)] + Scan(lines[n..])
            && Scan(lines[..n]) == [Block(a.name, lines[..n], closed)]
            && (!closed ==> n == |lines|)
  {
    hide Assigned, Extent;
    var value := Assigned(lines[0]).value.value;
    var head := lines[..Extent(lines, value).0];
    FirstExtent(lines, value);
    ScanStep(lines);
    ScanStep(head);
    assert head[|head|..] == [] && head[..|head|] == head;
    assert Scan([]) == [];
    hide Scan;
  }

  /** Where every quote closes, scanning continues as from a fresh start. */
  lemma {:induction false} ScanConcat(a: seq<string>, b: seq<string>)
    requires AllClosed(Scan(a))
    ensures Scan(a + b) == Scan(a) + Scan(b)
    decreases |a|
  {
    hide Assigned, Extent, Quote, Closes, IsQuoted;
    if a == [] {
      assert a + b == b;
    } else {
      match Assigned(a[0]) {
        case None =>
          assert (a + b)[1..] == a[1..] + b;
          ScanConcat(a[1..], b);
        case Some(x) =>
          var n := Extent(a, x.value).0;
          assert Scan(a)[0].closed && Scan(a)[1..] == Scan(a[n..]);
          ExtentIsLocal(a, b, x.value);
          assert (a + b)[n..] == a[n..] + b && (a + b)[..n] == a[..n];
          ScanConcat(a[n..], b);
      }
    }
  }

  function Names(blocks: seq<Block>): set<string> {
    set b <- blocks :: b.name
  }

  lemma NamesConcat(a: seq<Block>, b: seq<Block>)
    ensures Names(a + b) == Names(a) + Names(b)
    ensures |a| == 1 ==> Names(a) == {a[0].name}
  {
    forall name | name in Names(a) + Names(b) ensures name in Names(a + b) {
      if x :| x in a && x.name == name {
        assert x in a + b;
      } else {
        var y :| y in b && y.name == name;
        assert y in a + b;
      }
    }
  }

  lemma BlankScans()
    ensures Scan([""]) == []
  {
  }

  /** An unterminated quote takes an appended line with it, whatever the line says. */
  lemma {:induction false} OpenQuoteSwallows(lines: seq<string>, line: string)
    requires !AllClosed(Scan(lines))
    ensures Names(Scan(lines + [line, ""])) == Names(Scan(lines))
    decreases |lines|
  {
    hide Assigned, Extent, Closes, IsQuoted, Quote, Names;
    var all := lines + [line, ""];
    match Assigned(lines[0]) {
      case None =>
        assert all[1..] == lines[1..] + [line, ""];
        OpenQuoteSwallows(lines[1..], line);
      case Some(x) =>
        var (n, closed) := Extent(lines, x.value);
        FirstBlock(lines);
        FirstBlock(all);
        ExtentIsLocal(lines, [line, ""], x.value);
        var m := Extent(all, x.value).0;
        NamesConcat([Block(x.name, lines[..n], closed)], Scan(lines[n..]));
        NamesConcat([Block(x.name, all[..m], Extent(all, x.value).1)], Scan(all[m..]));
        if closed {
          assert all[n..] == lines[n..] + [line, ""];
          OpenQuoteSwallows(lines[n..], line);
        } else {
          assert lines[n..] == [];
          assert all[m..] == [] || all[m..] == [""];
          BlankScans();
        }
    }
  }

  // ---- The located assignment -------------------------------------------------------------

  lemma {:induction false} LocateFindsNames(lines: seq<string>, key: string)
    ensures Locate(lines, key).Some? <==> key in Names(Scan(lines))
    decreases |lines|
  {
    if lines != [] {
      match Assigned(lines[0]) {
        case None => LocateFindsNames(lines[1..], key);
        case Some(x) =>
          var (n, closed) := Extent(lines, x.value);
          NamesConcat([Block(x.name, lines[..n], closed)], Scan(lines[n..]));
          LocateFindsNames(lines[n..], key);
      }
    }
  }

  /** The place is one block of the key, everything before it closed, the key in nothing after it. */
  ghost predicate IsLastOf(lines: seq<string>, key: string, p: Place) {
    && p.start + p.length <= |lines|
    && var before, text, after := lines[..p.start], lines[p.start..p.start + p.length], lines[p.start + p.length..];
    && AllClosed(Scan(before))
    && (exists closed :: Scan(lines[p.start..]) == [Block(key, text, closed)] + Scan(after))
    && key !in Names(Scan(after))
  }

  lemma {:induction false} LocateIsLast(lines: seq<string>, key: string)
    requires Locate(lines, key).Some?
    ensures IsLastOf(lines, key, Locate(lines, key).value)
    decreases |lines|
  {
    hide Assigned, Extent, Closes, IsQuoted, Quote, Names, IsLastOf;
    match Assigned(lines[0]) {
      case None =>
        assert Scan(lines[..1]) == [];
        LocateIsLast(lines[1..], key);
        PlaceInRest(lines, 1, key, Locate(lines[1..], key).value);
      case Some(x) =>
        var n := Extent(lines, x.value).0;
        FirstBlock(lines);
        hide Scan;
        LocateFindsNames(lines[n..], key);
        if Locate(lines[n..], key).Some? {
          LocateIsLast(lines[n..], key);
          PlaceInRest(lines, n, key, Locate(lines[n..], key).value);
        } else if x.name == key {
          PlaceAtStart(lines, key, n);
        }
    }
  }

  lemma PlaceAtStart(lines: seq<string>, key: string, n: nat)
    requires n <= |lines| && key !in Names(Scan(lines[n..]))
    requires exists closed :: Scan(lines) == [Block(key, lines[..n], closed)] + Scan(lines[n..])
    ensures IsLastOf(lines, key, Place(0, n))
  {
    hide Names;
    assert lines[0..] == lines && lines[0..n] == lines[..n];
  }

  lemma PlaceInRest(lines: seq<string>, n: nat, key: string, p: Place)
    requires n <= |lines| && AllClosed(Scan(lines[..n])) && IsLastOf(lines[n..], key, p)
    ensures IsLastOf(lines, key, Place(n + p.start, p.length))
  {
    hide Scan, Names;
    var rest := lines[n..];
    assert lines[..n + p.start] == lines[..n] + rest[..p.start];
    ScanConcat(lines[..n], rest[..p.start]);
    assert lines[n + p.start..] == rest[p.start..];
    assert lines[n + p.start..n + p.start + p.length] == rest[p.start..p.start + p.length];
    assert lines[n + p.start + p.length..] == rest[p.start + p.length..];
  }

  lemma {:induction false} LocateAfter(a: seq<string>, b: seq<string>, key: string)
    requires AllClosed(Scan(a)) && Locate(b, key).Some?
    ensures Locate(a + b, key) == Shifted(Locate(b, key), |a|)
    decreases |a|
  {
    hide Assigned, Extent, Closes, IsQuoted, Quote, Scan, Locate;
    if a == [] {
      assert a + b == b;
    } else {
      var n := FirstStep(a);
      LocateBehind(a, b, n, key);
      assert (a + b)[n..] == a[n..] + b;
      LocateAfter(a[n..], b, key);
    }
  }

  /** How many lines the first line takes, with its assignment if it has one. */
  function FirstStep(a: seq<string>): (n: nat)
    requires a != []
    ensures 0 < n <= |a|
  {
    match Assigned(a[0])
    case None => 1
    case Some(x) => Extent(a, x.value).0
  }

  /** What is found behind the first block is found in the whole. */
  lemma LocateBehind(a: seq<string>, b: seq<string>, n: nat, key: string)
    requires a != [] && AllClosed(Scan(a)) && n == FirstStep(a)
    ensures AllClosed(Scan(a[n..]))
    ensures Locate((a + b)[n..], key).Some? ==> Locate(a + b, key) == Shifted(Locate((a + b)[n..], key), n)
  {
    hide Assigned, Extent, Closes, IsQuoted, Quote;
    if Assigned(a[0]).Some? {
      ExtentIsLocal(a, b, Assigned(a[0]).value.value);
      assert Scan(a)[0].closed && Scan(a)[1..] == Scan(a[n..]);
    }
  }

  // ---- The line that is written --------------------------------------------------------------

  predicate NameChar(c: char) {
    'a' <= c <= 'z' || 'A' <= c <= 'Z' || '0' <= c <= '9' || c == '_'
  }

  /** The variable names the interpolation pattern of the source can match. */
  predicate ValidKey(key: string) {
    key != "" && forall i :: 0 <= i < |key| ==> NameChar(key[i])
  }

  /** One line that assigns the key a quoted value which closes on the line. */
  predicate Assigns(line: string, key: string) {
    && '\n' !in line
    && Assigned(line).Some?
    && var a := Assigned(line).value;
    && a.name == key && IsQuoted(a.value) && Closes(a.value[1..], a.value[0], false)
  }

  /** Text without a quote or a backslash. */
  predicate Plain(text: string, quote: char) {
    forall i :: 0 <= i < |text| ==> text[i] != quote && text[i] != '\\' && text[i] != '\n'
  }

  lemma {:induction false} HexIsPlain(n: int, width: nat)
    requires n >= 0
    ensures Plain(HexDigits(n, width), '"')
  {
    if width > 0 {
      HexIsPlain(n / 16, width - 1);
      var h := Hex(n % 16);
      assert '0' <= h <= '9' || 'a' <= h <= 'f';
    }
  }

  lemma {:induction false} PlainText(plain: string, rest: string, quote: char)
    requires Plain(plain, quote)
    ensures Closes(plain + rest, quote, false) == Closes(rest, quote, false)
  {
    if plain == "" {
      assert plain + rest == rest;
    } else {
      assert (plain + rest)[1..] == plain[1..] + rest;
      PlainText(plain[1..], rest, quote);
    }
  }

  /** An escape is one plain character, or a backslash, one character, and plain text. */
  lemma EscapeShape(c: char, printable: char -> bool)
    ensures var e := Escape(c, printable);
            || (e == [c] && Plain(e, '"'))
            || (|e| >= 2 && e[0] == '\\' && e[1] != '\n' && Plain(e[2..], '"'))
  {
    hide HexDigits;
    var n := c as int;
    var e := Escape(c, printable);
    if c == '"' || c == '\\' || 0x20 <= n < 0x7F || (n > 0x7F && printable(c)) {
    } else if 7 <= n <= 13 {
      assert e[2..] == "";
    } else {
      HexIsPlain(n, 2);
      HexIsPlain(n, 4);
      HexIsPlain(n, 8);
      assert e[2..] == HexDigits(n, if n < 0x20 || n == 0x7F then 2 else if n < 0x10000 then 4 else 8);
    }
  }

  lemma EscapeIsInert(c: char, printable: char -> bool, rest: string)
    ensures Closes(Escape(c, printable) + rest, '"', false) == Closes(rest, '"', false)
    ensures '\n' !in Escape(c, printable)
  {
    EscapeShape(c, printable);
    hide Escape;
    var e := Escape(c, printable);
    if Plain(e, '"') {
      PlainText(e, rest, '"');
    } else {
      assert (e + rest)[1..][1..] == e[2..] + rest;
      PlainText(e[2..], rest, '"');
      assert e == [e[0], e[1]] + e[2..];
    }
  }

  lemma {:induction false} EscapedIsInert(s: string, printable: char -> bool, rest: string)
    ensures Closes(Escaped(s, printable) + rest, '"', false) == Closes(rest, '"', false)
    ensures '\n' !in Escaped(s, printable)
  {
    if s == "" {
      assert Escaped(s, printable) + rest == rest;
    } else {
      var e, tail := Escape(s[0], printable), Escaped(s[1..], printable);
      assert Escaped(s, printable) + rest == e + (tail + rest);
      EscapeIsInert(s[0], printable, tail + rest);
      EscapedIsInert(s[1..], printable, rest);
    }
  }

  /** A written value closes at its last character and not before, whatever it contains. */
  lemma LiteralClosesAtItsEnd(value: string, printable: char -> bool)
    ensures var text := Literal(value, printable);
            && |text| >= 2 && text[0] == '"' == text[|text| - 1] && '\n' !in text
            && Closes(text[1..], '"', false) && !Closes(text[1..|text| - 1], '"', false)
  {
    var inside := Escaped(DoubleDollars(value), printable);
    var text := Literal(value, printable);
    assert text[1..] == inside + "\"" && text[1..|text| - 1] == inside + "";
    EscapedIsInert(DoubleDollars(value), printable, "\"");
    EscapedIsInert(DoubleDollars(value), printable, "");
  }

  lemma {:induction false} CutAtKey(key: string, rest: string)
    requires '=' !in key
    ensures Cut(key + "=" + rest, '=') == Some((key, rest))
  {
    var s := key + "=" + rest;
    if key == "" {
      assert s[1..] == rest;
    } else {
      assert s[1..] == key[1..] + "=" + rest;
      CutAtKey(key[1..], rest);
      assert [key[0]] + key[1..] == key;
    }
  }

  lemma TrimKeeps(s: string)
    requires s != "" && !IsSpace(s[0]) && !IsSpace(s[|s| - 1])
    ensures Trim(s) == s
  {
  }

  lemma NotExported(key: string, rest: string)
    requires ValidKey(key)
    ensures !("export " <= key + "=" + rest)
  {
    var line := key + "=" + rest;
    var word := "export ";
    if |key| < 6 {
      assert line[|key|] == '=' && word[|key|] != '=';
    } else if |key| == 6 {
      assert line[6] == '=' && word[6] == ' ';
    } else {
      assert line[6] == key[6] && NameChar(key[6]) && word[6] == ' ';
    }
  }

  /** Whatever the value, the written line is one closed assignment of the key. */
  lemma EncodedAssigns(key: string, value: string, printable: char -> bool)
    requires ValidKey(key)
    ensures Assigns(Encoded(key, value, printable), key)
    ensures Assigned(Encoded(key, value, printable)) == Some(Assignment(key, Literal(value, printable)))
  {
    var line, text := Encoded(key, value, printable), Literal(value, printable);
    LiteralClosesAtItsEnd(value, printable);
    assert NameChar(key[0]) && line[0] == key[0] && line[|line| - 1] == text[|text| - 1];
    TrimKeeps(line);
    assert !("export " <= line) by {
      NotExported(key, text);
    }
    assert '=' !in key;
    CutAtKey(key, text);
    TrimKeeps(key);
    TrimKeeps(text);
  }

  // ---- The whole edit --------------------------------------------------------------------------

  lemma {:induction false} SplitConcat(a: string, b: string, separator: char)
    ensures Split(a + [separator] + b, separator) == Split(a, separator) + Split(b, separator)
  {
    var s := a + [separator] + b;
    if a == "" {
      assert s[1..] == b;
    } else {
      assert s[1..] == a[1..] + [separator] + b;
      SplitConcat(a[1..], b, separator);
    }
  }

  predicate EndsLine(content: string) {
    content == "" || content[|content| - 1] == '\n'
  }

  /** The lines before and after the one an edit writes. */
  function Around(content: string, key: string): (seq<string>, seq<string>) {
    var lines := Split(content, '\n');
    match Locate(lines, key)
    case Some(p) => (lines[..p.start], lines[p.start + p.length..])
    case None => (if EndsLine(content) then lines[..|lines| - 1] else lines, [""])
  }

  /** The last part of a text is empty exactly when its last line is ended. */
  lemma LastPart(content: string)
    ensures var parts := Split(content, '\n');
            EndsLine(content) ==> parts == parts[..|parts| - 1] + [""]
    ensures content != "" && EndsLine(content) ==>
              Split(content[..|content| - 1], '\n') == Split(content, '\n')[..|Split(content, '\n')| - 1]
  {
    if content != "" && EndsLine(content) {
      var body := content[..|content| - 1];
      assert content == body + ['\n'] + "";
      SplitConcat(body, "", '\n');
    }
  }

  /**
   * An edit keeps every line outside the assignment it replaces; a new assignment comes last,
   * on a line of its own.
   */
  lemma EditKeepsOtherLines(content: string, key: string, line: string)
    requires '\n' !in line
    ensures var (before, after) := Around(content, key);
            && Split(Set(content, key, line), '\n') == before + [line] + after
            && (Locate(Split(content, '\n'), key).None? ==>
                  Split(content, '\n') == before + (if EndsLine(content) then after else []))
  {
    hide Split, Locate, Join;
    var lines := Split(content, '\n');
    var (before, after) := Around(content, key);
    match Locate(lines, key) {
      case Some(p) =>
        var parts := before + [line] + after;
        forall part | part in parts ensures '\n' !in part {
          assert part in lines || part == line;
        }
        SplitJoin(parts, '\n');
      case None =>
        if EndsLine(content) {
          LineAfterEndedLines(content, line);
        } else {
          LineAfter(content, line);
          assert before + [] == lines;
        }
    }
  }

  lemma LineAfter(text: string, line: string)
    requires '\n' !in line
    ensures Split(text + "\n" + line + "\n", '\n') == Split(text, '\n') + [line] + [""]
  {
    hide Split;
    SplitAt(line, "", '\n');
    SplitWhole("", '\n');
    SplitConcat(text, line + ['\n'] + "", '\n');
    assert text + "\n" + line + "\n" == text + ['\n'] + (line + ['\n'] + "");
    assert Split(text, '\n') + ([line] + [""]) == Split(text, '\n') + [line] + [""];
  }

  lemma LineAfterEndedLines(content: string, line: string)
    requires '\n' !in line && EndsLine(content)
    ensures var lines := Split(content, '\n');
            && lines == lines[..|lines| - 1] + [""]
            && Split(content + line + "\n", '\n') == lines[..|lines| - 1] + [line] + [""]
  {
    hide Split;
    LastPart(content);
    if content == "" {
      SplitWhole(content, '\n');
      SplitAt(line, "", '\n');
      assert content + line + "\n" == line + ['\n'] + "";
      assert [""][..0] + [line] + [""] == [line] + [""];
    } else {
      var text := content[..|content| - 1];
      LineAfter(text, line);
      assert content == text + "\n";
    }
  }

  ghost predicate Editable(content: string, key: string) {
    var lines := Split(content, '\n');
    Locate(lines, key).Some? || AllClosed(Scan(lines))
  }

  /** Where a good edit puts its line: closed assignments before it, none of the key after it. */
  ghost predicate Lands(before: seq<string>, line: string, after: seq<string>, key: string) {
    AllClosed(Scan(before)) && Assigns(line, key) && key !in Names(Scan(after))
  }

  lemma ScanLanded(before: seq<string>, line: string, after: seq<string>, key: string)
    requires Lands(before, line, after, key)
    ensures Scan(before + [line] + after) == Scan(before) + [Block(key, [line], true)] + Scan(after)
    ensures Locate(before + [line] + after, key) == Some(Place(|before|, 1))
  {
    hide Assigned, Quote, Names, AllClosed;
    var rest := [line] + after;
    assert before + [line] + after == before + rest;
    FirstBlock(rest);
    assert rest[1..] == after && rest[..1] == [line];
    ScanConcat(before, rest);
    LocateFindsNames(after, key);
    LocateAfter(before, rest, key);
  }

  /** A blank line at the end neither closes a quote nor starts an assignment. */
  lemma {:induction false} BlankAtEnd(lines: seq<string>)
    ensures Names(Scan(lines + [""])) == Names(Scan(lines))
    ensures AllClosed(Scan(lines + [""])) <==> AllClosed(Scan(lines))
    ensures AllClosed(Scan(lines)) ==> Scan(lines + [""]) == Scan(lines)
    decreases |lines|
  {
    hide Assigned, Extent, IsQuoted, Names;
    var all := lines + [""];
    BlankScans();
    if lines == [] {
      assert all == [""];
    } else {
      match Assigned(lines[0]) {
        case None =>
          assert all[1..] == lines[1..] + [""];
          BlankAtEnd(lines[1..]);
        case Some(x) =>
          var (n, closed) := Extent(lines, x.value);
          var (m, closes) := Extent(all, x.value);
          FirstBlock(lines);
          FirstBlock(all);
          ExtentIsLocal(lines, [""], x.value);
          NamesConcat([Block(x.name, lines[..n], closed)], Scan(lines[n..]));
          NamesConcat([Block(x.name, all[..m], closes)], Scan(all[m..]));
          if closed {
            assert all[n..] == lines[n..] + [""] && all[..n] == lines[..n];
            BlankAtEnd(lines[n..]);
          } else {
            assert lines[n..] == [] && all[m..] == [];
          }
      }
    }
  }

  function Assignments(content: string): map<string, seq<string>> {
    Effective(Scan(Split(content, '\n')))
  }

  lemma UpdateInside<K, V>(before: map<K, V>, replaced: map<K, V>, after: map<K, V>, key: K, value: V)
    requires key !in after && forall k :: k in replaced ==> k == key
    ensures before + map[key := value] + after == (before + replaced + after)[key := value]
  {
  }

  lemma ReplacingUpdates(before: seq<Block>, replaced: seq<Block>, line: string, after: seq<Block>, key: string)
    requires key !in Names(after)
    requires forall b :: b in replaced ==> b.name == key
    ensures Effective(before + [Block(key, [line], true)] + after) == Effective(before + replaced + after)[key := [line]]
  {
    hide Effective;
    var added := [Block(key, [line], true)];
    EffectiveConcat(before + added, after);
    EffectiveConcat(before, added);
    EffectiveConcat(before + replaced, after);
    EffectiveConcat(before, replaced);
    EffectiveNames(after, key);
    forall name | name in Effective(replaced) ensures name == key {
      EffectiveNames(replaced, name);
    }
    OneAssignment(added[0]);
    UpdateInside(Effective(before), Effective(replaced), Effective(after), key, [line]);
  }

  lemma OneAssignment(b: Block)
    ensures Effective([b]) == map[b.name := b.text]
  {
    assert [b][1..] == [];
  }

  /** The old file, as the edit sees it: blocks of the key alone are replaced. */
  lemma EditableShape(content: string, key: string) returns (replaced: seq<Block>)
    requires Editable(content, key)
    ensures var (before, after) := Around(content, key);
            && AllClosed(Scan(before)) && key !in Names(Scan(after))
            && (forall b :: b in replaced ==> b.name == key)
            && Scan(Split(content, '\n')) == Scan(before) + replaced + Scan(after)
  {
    hide Scan, Locate, Split, Names;
    var lines := Split(content, '\n');
    var (before, after) := Around(content, key);
    match Locate(lines, key) {
      case Some(p) =>
        LocateIsLast(lines, key);
        var text := lines[p.start..p.start + p.length];
        var closed :| Scan(lines[p.start..]) == [Block(key, text, closed)] + Scan(after);
        replaced := [Block(key, text, closed)];
        assert lines == before + lines[p.start..];
        ScanConcat(before, lines[p.start..]);
        assert Scan(before) + ([Block(key, text, closed)] + Scan(after)) == Scan(before) + replaced + Scan(after);
      case None =>
        replaced := [];
        EditKeepsOtherLines(content, key, "");
        BlankAtEnd(before);
        BlankScans();
        NamesConcat([Block("", [], true)], []);
        assert before + [] == before;
        assert Scan(before) + [] + [] == Scan(before);
        NoNames();
    }
  }

  lemma NoNames()
    ensures Names([]) == {}
  {
  }

  lemma OpenShape(content: string, key: string)
    requires !Editable(content, key)
    ensures var (before, after) := Around(content, key);
            after == [""] && !AllClosed(Scan(before)) && key !in Names(Scan(before))
  {
    hide Scan, Split, Names, Locate, AllClosed;
    var lines := Split(content, '\n');
    var (before, after) := Around(content, key);
    EditKeepsOtherLines(content, key, "");
    LocateFindsNames(lines, key);
    BlankAtEnd(before);
    assert before + [] == before;
  }

  /** After a failed edit the key is still unassigned. */
  lemma OpenEdit(content: string, key: string, line: string)
    requires !Editable(content, key) && '\n' !in line
    ensures key !in Names(Scan(Split(Set(content, key, line), '\n')))
  {
    hide Scan, Split, Names, Locate, AllClosed, Set;
    OpenShape(content, key);
    EditKeepsOtherLines(content, key, line);
    var before := Around(content, key).0;
    assert before + [line] + [""] == before + [line, ""];
    OpenQuoteSwallows(before, line);
  }

  /**
   * The edit gives the old assignments, the last of each name winning, updated at the key alone,
   * exactly when the key is already assigned or no quote is left open; and it opens no quote.
   */
  lemma EditIsExactIff(content: string, key: string, line: string)
    requires Assigns(line, key)
    ensures Editable(content, key) <==> Assignments(Set(content, key, line)) == Assignments(content)[key := [line]]
    ensures AllClosed(Scan(Split(content, '\n'))) ==> AllClosed(Scan(Split(Set(content, key, line), '\n')))
  {
    hide Scan, Locate, Split, Set, Effective, Assigned, Around;
    if Editable(content, key) {
      var replaced := EditableShape(content, key);
      var (before, after) := Around(content, key);
      EditKeepsOtherLines(content, key, line);
      ScanLanded(before, line, after, key);
      ReplacingUpdates(Scan(before), replaced, line, Scan(after), key);
    } else {
      OpenEdit(content, key, line);
      EffectiveNames(Scan(Split(Set(content, key, line), '\n')), key);
    }
  }

  /** A later edit of a key hides an earlier one entirely; the same edit twice is the edit once. */
  lemma LastEditWinsIff(content: string, key: string, first: string, second: string)
    requires Assigns(first, key) && Assigns(second, key)
    ensures Editable(content, key) <==> Set(Set(content, key, first), key, second) == Set(content, key, second)
  {
    hide Scan, Locate, Split, Assigned, Join, Names;
    var edited := Set(content, key, first);
    EditKeepsOtherLines(content, key, first);
    EditKeepsOtherLines(content, key, second);
    if Editable(content, key) {
      var replaced := EditableShape(content, key);
      var (before, after) := Around(content, key);
      ScanLanded(before, first, after, key);
      JoinSplit(Set(content, key, second), '\n');
      var lines := before + [first] + after;
      assert lines[..|before|] == before && lines[|before| + 1..] == after;
    } else {
      OpenEdit(content, key, first);
      LocateFindsNames(Split(content, '\n'), key);
      LocateFindsNames(Split(edited, '\n'), key);
      var body := if EndsLine(content) then content else content + "\n";
      assert edited == body + first + "\n";
      assert Set(edited, key, second) == edited + second + "\n";
      assert |Set(edited, key, second)| > |Set(content, key, second)|;
    }
  }

  /** The file the next lemma edits: one line, whose quote does not close. */
  lemma OpenLine()
    ensures Assigned("A='x") == Some(Assignment("A", "'x"))
    ensures Extent(["A='x", ""], "'x") == (2, false)
  {
    var first := "A='x";
    assert first == "A" + "=" + "'x";
    CutAtKey("A", "'x");
    TrimKeeps(first);
    TrimKeeps("A");
    TrimKeeps("'x");
    hide Trim, Cut;
    assert "'x"[1..] == "x" && ["A='x", ""][1..] == [""] && [""][1..] == [];
    assert Quote([""], '\'') == (1, false);
  }

  /** The other case of `EditIsExactIff` happens: an open quote takes the new line with it. */
  lemma OpenQuoteTakesKey(content: string, line: string)
    requires content == "A='x\n" && Assigns(line, "K")
    ensures !Editable(content, "K") && "K" !in Assignments(Set(content, "K", line))
  {
    hide Assigned, Extent, Split, Locate, Effective;
    var first := "A='x";
    assert content == first + ['\n'] + "";
    SplitAt(first, "", '\n');
    SplitWhole("", '\n');
    var lines := [first, ""];
    assert [first] + [""] == lines && Split(content, '\n') == lines;
    OpenLine();
    FirstBlock(lines);
    assert lines[2..] == [] && lines[..2] == lines;
    var b := Block("A", lines, false);
    assert Scan(lines) == [b];
    assert b in Scan(lines);
    LocateFindsNames(lines, "K");
    OpenEdit(content, "K", line);
    EffectiveNames(Scan(Split(Set(content, "K", line), '\n')), "K");
  }
}
