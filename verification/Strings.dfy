/** The result types and the string splitting that several components share. */
module Strings {

  datatype Option<+T> = None | Some(value: T)

  datatype Result<+T, +E> = Success(value: T) | Failure(error: E)

  /** The parts of `s` between separators; there is always at least one part. */
  function Split(s: string, separator: char): (parts: seq<string>)
    ensures |parts| >= 1
    ensures forall part :: part in parts ==> separator !in part
  {
    if s == [] then [""]
    else if s[0] == separator then [""] + Split(s[1..], separator)
    else
      var rest := Split(s[1..], separator);
      [[s[0]] + rest[0]] + rest[1..]
  }

  function Join(parts: seq<string>, separator: char): string
  {
    if parts == [] then ""
    else if |parts| == 1 then parts[0]
    else parts[0] + [separator] + Join(parts[1..], separator)
  }

  lemma {:induction false} JoinSplit(s: string, separator: char)
    ensures Join(Split(s, separator), separator) == s
  {
    if s != [] {
      JoinSplit(s[1..], separator);
      var rest := Split(s[1..], separator);
      if s[0] != separator && |rest| > 1 {
        var parts := Split(s, separator);
        assert parts[1..] == rest[1..];
      } else if s[0] == separator {
        assert Split(s, separator)[1..] == rest;
      }
    }
  }

  /** Splitting where a separator is known to be. */
  lemma {:induction false} SplitAt(a: string, b: string, separator: char)
    requires separator !in a
    ensures Split(a + [separator] + b, separator) == [a] + Split(b, separator)
  {
    var s := a + [separator] + b;
    if a == [] {
      assert s[1..] == b;
    } else {
      assert s[1..] == a[1..] + [separator] + b;
      SplitAt(a[1..], b, separator);
      assert [a[0]] + a[1..] == a;
    }
  }

  lemma {:induction false} SplitWhole(a: string, separator: char)
    requires separator !in a
    ensures Split(a, separator) == [a]
  {
    if a != [] {
      SplitWhole(a[1..], separator);
      assert [a[0]] + a[1..] == a;
    }
  }

  lemma {:induction false} SplitJoin(parts: seq<string>, separator: char)
    requires |parts| >= 1
    requires forall part :: part in parts ==> separator !in part
    ensures Split(Join(parts, separator), separator) == parts
  {
    if |parts| == 1 {
      SplitWhole(parts[0], separator);
    } else {
      SplitAt(parts[0], Join(parts[1..], separator), separator);
      SplitJoin(parts[1..], separator);
      assert [parts[0]] + parts[1..] == parts;
    }
  }
}
