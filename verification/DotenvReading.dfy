/**
 * What a reader makes of dotenv lines and of the values that the editor writes
 * (internal/managed/configuration_files.go, internal/managed/deployment_files.go).
 */
module DotenvReading {
  import opened Strings
  import opened Dotenv

  // ---- Reading a quoted value -------------------------------------------------------

  function DigitValue(c: char): Option<int> {
    if '0' <= c <= '9' then Some(c as int - '0' as int)
    else if 'a' <= c <= 'f' then Some(c as int - 'a' as int + 10)
    else None
  }

  /** The number that hexadecimal digits stand for. */
  function HexNumber(s: string): Option<int> {
    if s == "" then Some(0)
    else
      match HexNumber(s[..|s| - 1])
      case None => None
      case Some(n) =>
        match DigitValue(s[|s| - 1])
        case None => None
        case Some(d) => Some(16 * n + d)
  }

  predicate IsCode(n: int) { 0 <= n < 0xD800 || 0xE000 <= n < 0x110000 }

  /** The character that an escape stands for, when its digits are `width` characters behind the first two. */
  function ReadDigits(text: string, width: nat): Option<char> {
    if |text| < 2 + width then None
    else
      match HexNumber(text[2..2 + width])
      case None => None
      case Some(n) => if IsCode(n) then Some(n as char) else None
  }

  function Prepend(c: char, rest: Option<string>): Option<string> {
    match rest
    case None => None
    case Some(s) => Some([c] + s)
  }

  /** The first character of escaped text, and how much text it takes. */
  function FirstOf(text: string): (r: Option<(char, nat)>)
    ensures r.Some? ==> 0 < r.value.1 <= |text|
  {
    if text == "" then None
    else if text[0] != '\\' then Some((text[0], 1))
    else if |text| == 1 then None
    else
      match text[1]
      case '"' => Some(('"', 2))
      case '\\' => Some(('\\', 2))
      case 'a' => Some((7 as char, 2))
      case 'b' => Some((8 as char, 2))
      case 'f' => Some((12 as char, 2))
      case 'n' => Some(('\n', 2))
      case 'r' => Some(('\r', 2))
      case 't' => Some(('\t', 2))
      case 'v' => Some((11 as char, 2))
      case 'x' => Digits(text, 2)
      case 'u' => Digits(text, 4)
      case 'U' => Digits(text, 8)
      case _ => None
  }

  function Digits(text: string, width: nat): (r: Option<(char, nat)>)
    ensures r.Some? ==> 0 < r.value.1 <= |text|
  {
    match ReadDigits(text, width)
    case None => None
    case Some(c) => Some((c, 2 + width))
  }

  /** What stands between the quotes, as `strconv.Unquote` reads it. */
  function Unescaped(text: string): Option<string>
    decreases |text|
  {
    if text == "" then Some("")
    else
      match FirstOf(text)
      case None => None
      case Some((c, n)) => Prepend(c, Unescaped(text[n..]))
  }

  /** Interpolation reads two dollars as one. */
  function SingleDollars(s: string): string {
    if s == "" then ""
    else if "$$" <= s then "$" + SingleDollars(s[2..])
    else [s[0]] + SingleDollars(s[1..])
  }

  /** The value a quoted literal stands for. */
  function ReadLiteral(text: string): Option<string> {
    if |text| < 2 || text[0] != '"' || text[|text| - 1] != '"' then None
    else
      match Unescaped(text[1..|text| - 1])
      case None => None
      case Some(s) => Some(SingleDollars(s))
  }

  function Pow16(width: nat): int { if width == 0 then 1 else 16 * Pow16(width - 1) }

  lemma {:induction false} HexReadsBack(n: int, width: nat)
    requires 0 <= n < Pow16(width)
    ensures |HexDigits(n, width)| == width && HexNumber(HexDigits(n, width)) == Some(n)
  {
    if width > 0 {
      HexReadsBack(n / 16, width - 1);
      var digits := HexDigits(n, width);
      assert digits[..|digits| - 1] == HexDigits(n / 16, width - 1);
      assert DigitValue(Hex(n % 16)) == Some(n % 16);
    }
  }

  lemma DigitsReadBack(c: char, first: char, width: nat, rest: string)
    requires width == 2 || width == 4 || width == 8
    requires c as int < Pow16(width)
    ensures ReadDigits(['\\', first] + HexDigits(c as int, width) + rest, width) == Some(c)
    ensures |HexDigits(c as int, width)| == width
  {
    var n := c as int;
    HexReadsBack(n, width);
    hide HexDigits, HexNumber;
    var text := ['\\', first] + HexDigits(n, width) + rest;
    assert text[2..2 + width] == HexDigits(n, width);
  }

  lemma Widths()
    ensures Pow16(2) == 0x100 && Pow16(4) == 0x10000 && Pow16(8) == 0x1_0000_0000
  {
    assert Pow16(1) == 16 && Pow16(3) == 0x1000;
    assert Pow16(5) == 0x10_0000 && Pow16(6) == 0x100_0000 && Pow16(7) == 0x1000_0000;
  }

  /** Every escape reads as the character it was written for. */
  lemma EscapeReadsBack(c: char, printable: char -> bool, rest: string)
    ensures FirstOf(Escape(c, printable) + rest) == Some((c, |Escape(c, printable)|))
  {
    hide HexDigits, ReadDigits, Pow16;
    var n, e := c as int, Escape(c, printable);
    var text := e + rest;
    Widths();
    if c == '"' || c == '\\' || 7 <= n <= 13 {
      assert text[0] == '\\' && text[1] == e[1];
    } else if 0x20 <= n < 0x7F || (n > 0x7F && printable(c)) {
      assert text[0] == c;
    } else {
      var width, first := if n < 0x20 || n == 0x7F then 2 else if n < 0x10000 then 4 else 8, e[1];
      DigitsReadBack(c, first, width, rest);
      assert e == ['\\', first] + HexDigits(n, width);
      assert text == ['\\', first] + HexDigits(n, width) + rest;
    }
  }

  lemma {:induction false} EscapedReadsBack(s: string, printable: char -> bool)
    ensures Unescaped(Escaped(s, printable)) == Some(s)
  {
    hide Escape, FirstOf;
    if s != "" {
      var e, rest := Escape(s[0], printable), Escaped(s[1..], printable);
      EscapeReadsBack(s[0], printable, rest);
      EscapedReadsBack(s[1..], printable);
      assert (e + rest)[|e|..] == rest;
      assert [s[0]] + s[1..] == s;
    }
  }

  lemma {:induction false} DollarsReadBack(s: string)
    ensures SingleDollars(DoubleDollars(s)) == s
  {
    if s != "" {
      var rest := DoubleDollars(s[1..]);
      DollarsReadBack(s[1..]);
      assert [s[0]] + s[1..] == s;
      if s[0] == '$' {
        assert ("$$" + rest)[2..] == rest && "$$" <= "$$" + rest;
      } else {
        assert ([s[0]] + rest)[1..] == rest && ([s[0]] + rest)[0] != '$';
      }
    }
  }

  /** Whatever the value, the literal that is written for it stands for it. */
  lemma LiteralReadsBack(value: string, printable: char -> bool)
    ensures ReadLiteral(Literal(value, printable)) == Some(value)
  {
    hide Escaped, DoubleDollars, Unescaped, SingleDollars;
    var doubled := DoubleDollars(value);
    EscapedReadsBack(doubled, printable);
    DollarsReadBack(value);
    var text := Literal(value, printable);
    assert text[1..|text| - 1] == Escaped(doubled, printable);
  }

  /**
   * After an edit the key's assignment is one line whose value stands for what was set, and every other key
   * has the assignment it had, exactly when the file can be edited.
   */
  lemma SetReadsBack(content: string, key: string, value: string, printable: char -> bool)
    requires ValidKey(key) && Editable(content, key)
    ensures var line := Encoded(key, value, printable);
            var after := Assignments(Set(content, key, line));
            && after == Assignments(content)[key := [line]]
            && Assigned(line) == Some(Assignment(key, Literal(value, printable)))
            && ReadLiteral(Assigned(line).value.value) == Some(value)
  {
    hide Set, Assignments, Editable, Literal, Assigns, Assigned;
    EncodedAssigns(key, value, printable);
    EditIsExactIff(content, key, Encoded(key, value, printable));
    LiteralReadsBack(value, printable);
  }

  // ---- Which lines assign ----------------------------------------------------------------

  lemma {:induction false} TrimRightBehind(a: string, b: string)
    requires a != "" && !IsSpace(a[|a| - 1])
    ensures TrimRight(a + b) == a + TrimRight(b)
    decreases |b|
  {
    if b == "" {
      assert a + b == a;
    } else {
      var s := a + b;
      assert s[|s| - 1] == b[|b| - 1] && s[..|s| - 1] == a + b[..|b| - 1];
      if IsSpace(b[|b| - 1]) {
        TrimRightBehind(a, b[..|b| - 1]);
      }
    }
  }

  lemma {:induction false} TrimRightEnds(s: string)
    ensures var t := TrimRight(s); t <= s && (t != "" ==> !IsSpace(t[|t| - 1])) && TrimRight(t) == t
  {
    if s != "" && IsSpace(s[|s| - 1]) {
      TrimRightEnds(s[..|s| - 1]);
    }
  }

  /** Trimming on the right does not matter to one who trims. */
  lemma {:induction false} TrimOfTrimmed(s: string)
    ensures Trim(TrimRight(s)) == Trim(s)
    decreases |s|
  {
    TrimRightEnds(s);
    if s != "" && IsSpace(s[0]) {
      var t := TrimRight(s);
      if t == "" {
        AllSpace(s);
      } else {
        assert s == [s[0]] + s[1..];
        TrimOfTrimmed(s[1..]);
        TrimRightTail(s);
      }
    }
  }

  /** If nothing is left after trimming on the right, nothing is left after trimming. */
  lemma {:induction false} AllSpace(s: string)
    requires TrimRight(s) == ""
    ensures Trim(s) == ""
    decreases |s|
  {
    if s != "" {
      AllSpaceOn(s, 0);
      TrimLeftOfSpace(s);
    }
  }

  lemma {:induction false} AllSpaceOn(s: string, k: nat)
    requires TrimRight(s) == "" && k < |s|
    ensures forall i :: 0 <= i < |s| ==> IsSpace(s[i])
    decreases |s|
  {
    if |s| > 1 {
      AllSpaceOn(s[..|s| - 1], 0);
    }
  }

  lemma {:induction false} TrimLeftOfSpace(s: string)
    requires forall i :: 0 <= i < |s| ==> IsSpace(s[i])
    ensures TrimLeft(s) == ""
  {
    if s != "" {
      TrimLeftOfSpace(s[1..]);
    }
  }

  lemma {:induction false} TrimRightTail(s: string)
    requires s != "" && TrimRight(s) != ""
    ensures IsSpace(s[0]) ==> TrimRight(s)[0] == s[0] && TrimRight(s)[1..] == TrimRight(s[1..])
    decreases |s|
  {
    if IsSpace(s[|s| - 1]) {
      assert |s| > 1;
      TrimRightTail(s[..|s| - 1]);
      assert s[1..][..|s[1..]| - 1] == s[..|s| - 1][1..];
    }
  }

  lemma {:induction false} CutBehind(before: string, c: char, after: string)
    requires c !in before
    ensures Cut(before + [c] + after, c) == Some((before, after))
  {
    var s := before + [c] + after;
    if before == "" {
      assert s[1..] == after;
    } else {
      assert s[1..] == before[1..] + [c] + after;
      CutBehind(before[1..], c, after);
      assert [before[0]] + before[1..] == before;
    }
  }

  lemma {:induction false} NothingCut(s: string, c: char)
    requires c !in s
    ensures Cut(s, c) == None
  {
    if s != "" {
      NothingCut(s[1..], c);
    }
  }

  /** What a name and a separator begin is left as it is by trimming, but for its end. */
  lemma TrimmedForm(name: string, c: char, value: string)
    requires ValidKey(name) && !IsSpace(c)
    ensures Trim(name + [c] + value) == name + [c] + TrimRight(value)
    ensures Trim(name + [c] + TrimRight(value)) == name + [c] + TrimRight(value)
    ensures Trim(name) == name
  {
    assert NameChar(name[0]) && NameChar(name[|name| - 1]);
    TrimKeeps(name);
    TrimRightBehind(name + [c], value);
    TrimRightBehind(name + [c], TrimRight(value));
    TrimRightEnds(value);
  }

  predicate Separates(c: char, value: string) { c == '=' || (c == ':' && '=' !in value) }

  lemma CutForm(name: string, c: char, value: string)
    requires ValidKey(name) && Separates(c, value)
    ensures var bare := name + [c] + value; (if Cut(bare, '=').Some? then Cut(bare, '=') else Cut(bare, ':')) == Some((name, value))
  {
    assert c !in name && '=' !in name;
    CutBehind(name, c, value);
    if c == ':' {
      NothingCut(name + [c] + value, '=');
    }
  }

  lemma Unexported(name: string, c: char, value: string)
    requires ValidKey(name) && (c == '=' || c == ':')
    ensures var bare := name + [c] + value;
            bare[0] != '#' && TrimPrefix(bare, "export ") == bare && TrimPrefix("export " + bare, "export ") == bare
  {
    NotAnExport(name, c, value);
    var bare := name + [c] + value;
    assert NameChar(name[0]) && bare[0] == name[0];
    assert ("export " + bare)[7..] == bare;
  }

  /** A name, a separator and a value: the value is what is left after trimming. */
  lemma AssignedForm(name: string, c: char, value: string)
    requires ValidKey(name) && Separates(c, value)
    ensures Assigned(name + [c] + value) == Some(Assignment(name, Trim(value)))
    ensures Assigned("export " + name + [c] + value) == Some(Assignment(name, Trim(value)))
  {
    hide Trim, TrimRight, Cut, TrimPrefix, Assigned, ValidKey;
    var kept := TrimRight(value);
    var bare := name + [c] + kept;
    TrimmedForm(name, c, value);
    TrimOfTrimmed(value);
    KeptSeparates(c, value);
    CutForm(name, c, kept);
    Unexported(name, c, kept);
    AssignedBy(name + [c] + value, bare, bare, name, kept);
    ExportedIsTrimmed(name, c, value);
    AssignedBy("export " + (name + [c] + value), "export " + bare, bare, name, kept);
    assert "export " + name + [c] + value == "export " + (name + [c] + value);
  }

  lemma KeptSeparates(c: char, value: string)
    requires Separates(c, value)
    ensures Separates(c, TrimRight(value)) && !IsSpace(c)
  {
    TrimRightEnds(value);
  }

  /** The reading of a line that is `t` when trimmed and `u` without its prefix. */
  lemma AssignedBy(line: string, t: string, u: string, name: string, rest: string)
    requires Trim(line) == t && t != "" && t[0] != '#' && Trim(TrimPrefix(t, "export ")) == u
    requires (if Cut(u, '=').Some? then Cut(u, '=') else Cut(u, ':')) == Some((name, rest))
    ensures Assigned(line) == Some(Assignment(Trim(name), Trim(rest)))
  {
    hide Trim, Cut, TrimPrefix;
  }

  lemma ExportedIsTrimmed(name: string, c: char, value: string)
    requires !IsSpace(c)
    ensures Trim("export " + (name + [c] + value)) == "export " + (name + [c] + TrimRight(value))
  {
    var head := "export " + name + [c];
    TrimRightBehind(head, value);
    assert "export " + (name + [c] + value) == head + value;
    assert "export " + (name + [c] + TrimRight(value)) == head + TrimRight(value);
    NothingLeading(head + value);
    hide TrimRight, TrimLeft;
  }

  lemma NothingLeading(s: string)
    requires s != "" && !IsSpace(s[0])
    ensures TrimLeft(s) == s
  {
  }

  lemma NotAnExport(name: string, c: char, value: string)
    requires ValidKey(name) && (c == '=' || c == ':')
    ensures !("export " <= name + [c] + value)
  {
    var line, word := name + [c] + value, "export ";
    if |name| <= 6 {
      assert line[|name|] == c && word[|name|] != c;
    } else {
      assert line[6] == name[6] && NameChar(name[6]) && word[6] == ' ';
    }
  }

  /** Comments, blank lines and lines without a separator assign nothing; indentation does not matter. */
  lemma OtherForms(line: string, c: char)
    ensures Assigned("") == None
    ensures Assigned("#" + line) == None
    ensures IsSpace(c) ==> Assigned([c] + line) == Assigned(line)
    ensures '=' !in line && ':' !in line ==> Assigned(line) == None
  {
    assert ([c] + line)[1..] == line;
    var s := "#" + line;
    assert !IsSpace('#') && TrimLeft(s) == s;
    TrimRightBehind("#", line);
    if '=' !in line && ':' !in line {
      var t := Trim(line);
      TrimTakesAway(line);
      var u := Trim(TrimPrefix(t, "export "));
      TrimTakesAway(TrimPrefix(t, "export "));
      assert forall x :: x in TrimPrefix(t, "export ") ==> x in t;
      NothingCut(u, '=');
      NothingCut(u, ':');
    }
  }

  lemma TrimTakesAway(s: string)
    ensures forall x :: x in Trim(s) ==> x in s
  {
    LeftTakesAway(s);
    TrimRightEnds(TrimLeft(s));
  }

  lemma {:induction false} LeftTakesAway(s: string)
    ensures forall x :: x in TrimLeft(s) ==> x in s
  {
    if s != "" && IsSpace(s[0]) {
      LeftTakesAway(s[1..]);
    }
  }

  // ---- Where a quote closes ------------------------------------------------------------------

  /** How many backslashes stand directly before position `j`. */
  function Backslashes(text: string, j: nat): nat
    requires j <= |text|
  {
    if j == 0 || text[j - 1] != '\\' then 0 else 1 + Backslashes(text, j - 1)
  }

  ghost predicate ClosesAt(text: string, quote: char, j: nat) {
    j < |text| && text[j] == quote && Backslashes(text, j) % 2 == 0
  }

  /** A quote closes on a line exactly if it stands there behind an even number of backslashes. */
  lemma ClosesIff(text: string, quote: char)
    requires quote != '\\'
    ensures Closes(text, quote, false) <==> exists j: nat :: ClosesAt(text, quote, j)
  {
    ClosesFrom(text, quote, 0);
    assert text[0..] == text;
  }

  lemma {:induction false} ClosesFrom(text: string, quote: char, i: nat)
    requires quote != '\\' && i <= |text|
    ensures Closes(text[i..], quote, Backslashes(text, i) % 2 == 1) <==> exists j: nat :: i <= j && ClosesAt(text, quote, j)
    decreases |text| - i
  {
    if i < |text| {
      assert text[i..][1..] == text[i + 1..] && text[i..][0] == text[i];
      ClosesFrom(text, quote, i + 1);
      var escaped := Backslashes(text, i) % 2 == 1;
      assert Backslashes(text, i + 1) == if text[i] == '\\' then 1 + Backslashes(text, i) else 0;
      if ClosesAt(text, quote, i) {
        assert Closes(text[i..], quote, escaped);
      } else {
        assert (exists j: nat :: i <= j && ClosesAt(text, quote, j)) <==> (exists j: nat :: i + 1 <= j && ClosesAt(text, quote, j)) by {
          if j: nat :| i <= j && ClosesAt(text, quote, j) {
            assert i + 1 <= j;
          }
        }
        assert Closes(text[i..], quote, escaped) == Closes(text[i + 1..], quote, Backslashes(text, i + 1) % 2 == 1);
      }
    }
  }

  /** An open quote takes the lines up to the first on which it closes, or all. */
  lemma {:induction false} QuoteTakes(lines: seq<string>, quote: char)
    ensures var (n, closed) := Quote(lines, quote);
            && (forall i :: 0 <= i < (if closed then n - 1 else n) ==> !Closes(lines[i], quote, false))
            && (if closed then 0 < n && Closes(lines[n - 1], quote, false) else n == |lines|)
  {
    hide Closes;
    if lines != [] && !Closes(lines[0], quote, false) {
      QuoteTakes(lines[1..], quote);
      var (n, closed) := Quote(lines[1..], quote);
      forall i | 0 <= i < (if closed then n else n + 1) ensures !Closes(lines[i], quote, false) {
        if i > 0 {
          assert lines[i] == lines[1..][i - 1];
        }
      }
    }
  }

  /** A value in single or double quotes that does not close on its line takes more lines; any other is one line. */
  lemma ValueTakes(lines: seq<string>, value: string)
    requires lines != []
    ensures var quoted := value != "" && value[0] in {'\'', '"'};
            Extent(lines, value) ==
            if quoted && !Closes(value[1..], value[0], false)
            then (1 + Quote(lines[1..], value[0]).0, Quote(lines[1..], value[0]).1) else (1, true)
  {
  }
}
