/**
 * The string operations the mappers use: JavaScript's `trim`, `split(' ')`
 * and `join(' ')`, the display-name rule
 * `[nombre, apellidos].filter(Boolean).join(' ').trim()` and ASCII
 * lower-casing.
 */
module Text {
  import opened Wire

  /** The characters `String.prototype.trim` removes: WhiteSpace and LineTerminator. */
  predicate IsWhitespace(c: char) {
    var n := c as int;
    n == 0x09 || n == 0x0A || n == 0x0B || n == 0x0C || n == 0x0D || n == 0x20 ||
    n == 0xA0 || n == 0x1680 || (0x2000 <= n <= 0x200A) || n == 0x2028 || n == 0x2029 ||
    n == 0x202F || n == 0x205F || n == 0x3000 || n == 0xFEFF
  }

  predicate AllWhitespace(s: string) {
    forall k :: 0 <= k < |s| ==> IsWhitespace(s[k])
  }

  /** Neither end of `s` is whitespace. */
  predicate IsTrimmed(s: string) {
    s == [] || (!IsWhitespace(s[0]) && !IsWhitespace(s[|s| - 1]))
  }

  /** Index of the first non-whitespace character (or `|s|`). */
  function StartIndex(s: string): (i: nat)
    ensures i <= |s|
    ensures AllWhitespace(s[..i])
    ensures i < |s| ==> !IsWhitespace(s[i])
  {
    if s == [] || !IsWhitespace(s[0]) then 0
    else
      var k := StartIndex(s[1..]);
      assert s[..k + 1] == [s[0]] + s[1..][..k];
      k + 1
  }

  /** One past the last non-whitespace character at or after `lo` (or `lo`). */
  function EndIndex(s: string, lo: nat): (j: nat)
    requires lo <= |s|
    ensures lo <= j <= |s|
    ensures AllWhitespace(s[j..])
    ensures j > lo ==> !IsWhitespace(s[j - 1])
    decreases |s|
  {
    if |s| == lo || !IsWhitespace(s[|s| - 1]) then |s|
    else
      var j := EndIndex(s[..|s| - 1], lo);
      assert s[j..] == s[..|s| - 1][j..] + [s[|s| - 1]];
      j
  }

  /** `s.trim()`: drops the whitespace at both ends and keeps everything between. */
  function Trim(s: string): (r: string)
    ensures IsTrimmed(r)
    ensures IsTrimmed(s) ==> r == s
    ensures exists i :: 0 <= i <= |s| - |r| && r == s[i..i + |r|]
                        && AllWhitespace(s[..i]) && AllWhitespace(s[i + |r|..])
  {
    var i := StartIndex(s);
    var j := EndIndex(s, i);
    assert j > i ==> s[i..j][0] == s[i];
    s[i..j]
  }

  lemma TrimIdempotent(s: string)
    ensures Trim(Trim(s)) == Trim(s)
  {
  }

  /** `s.split(sep)`: the pieces between separators, always at least one. */
  function Split(s: string, sep: char): (parts: seq<string>)
    ensures |parts| >= 1
    ensures forall k :: 0 <= k < |parts| ==> sep !in parts[k]
    ensures s != [] && s[0] != sep ==> parts[0] != [] && parts[0][0] == s[0]
  {
    if s == [] then [[]]
    else
      var rest := Split(s[1..], sep);
      if s[0] == sep then [[]] + rest
      else [[s[0]] + rest[0]] + rest[1..]
  }

  /** `parts.join(sep)`. */
  function Join(parts: seq<string>, sep: char): string {
    if |parts| == 0 then []
    else if |parts| == 1 then parts[0]
    else parts[0] + [sep] + Join(parts[1..], sep)
  }

  /** Splitting and joining again at the same separator gives back the text. */
  lemma {:induction false} JoinSplit(s: string, sep: char)
    ensures Join(Split(s, sep), sep) == s
  {
    if s != [] {
      var rest := Split(s[1..], sep);
      JoinSplit(s[1..], sep);
      var parts := Split(s, sep);
      if s[0] == sep {
        assert parts[1..] == rest;
        assert s == [sep] + s[1..];
      } else if |rest| == 1 {
        assert s == [s[0]] + s[1..];
      } else {
        assert parts[1..] == rest[1..];
        assert s == [s[0]] + s[1..];
      }
    }
  }

  /** Text without the separator splits into itself alone. */
  lemma {:induction false} SplitWithoutSeparator(a: string, sep: char)
    requires sep !in a
    ensures Split(a, sep) == [a]
  {
    if a != [] {
      SplitWithoutSeparator(a[1..], sep);
      assert [a[0]] + a[1..] == a;
    }
  }

  /** Splitting at the first separator gives the text before it, then the rest split. */
  lemma {:induction false} SplitAtFirst(a: string, sep: char, b: string)
    requires sep !in a
    ensures Split(a + [sep] + b, sep) == [a] + Split(b, sep)
  {
    if a == [] {
      assert a + [sep] + b == [sep] + b;
      assert ([sep] + b)[1..] == b;
    } else {
      SplitAtFirst(a[1..], sep, b);
      assert (a + [sep] + b)[1..] == a[1..] + [sep] + b;
      assert [a[0]] + a[1..] == a;
    }
  }

  /** Joining pieces that contain no separator and splitting again gives back the pieces. */
  lemma {:induction false} SplitJoin(parts: seq<string>, sep: char)
    requires |parts| >= 1
    requires forall k :: 0 <= k < |parts| ==> sep !in parts[k]
    ensures Split(Join(parts, sep), sep) == parts
  {
    if |parts| == 1 {
      SplitWithoutSeparator(parts[0], sep);
    } else {
      SplitJoin(parts[1..], sep);
      SplitAtFirst(parts[0], sep, Join(parts[1..], sep));
      assert parts == [parts[0]] + parts[1..];
    }
  }

  /** `[x, y].filter(Boolean)` on one optional name part: kept only when truthy. */
  function Present(x: Option<string>): seq<string> {
    if Truthy(x) then [x.value] else []
  }

  /** The display name `[nombre, apellidos].filter(Boolean).join(' ').trim()`. */
  function DisplayName(nombre: Option<string>, apellidos: Option<string>): (name: string)
    ensures IsTrimmed(name)
    ensures !Truthy(nombre) && !Truthy(apellidos) ==> name == ""
    ensures Truthy(nombre) && !Truthy(apellidos) ==> name == Trim(nombre.value)
    ensures !Truthy(nombre) && Truthy(apellidos) ==> name == Trim(apellidos.value)
    ensures Truthy(nombre) && Truthy(apellidos) ==> name == Trim(nombre.value + " " + apellidos.value)
  {
    var kept := Present(nombre) + Present(apellidos);
    assert |kept| == 2 ==> kept[1..] == [kept[1]] && Join(kept[1..], ' ') == kept[1];
    assert Truthy(nombre) && Truthy(apellidos) ==> Join(kept, ' ') == nombre.value + " " + apellidos.value;
    Trim(Join(kept, ' '))
  }

  /**
   * The name form of the "new residente" dialog: `formName.trim().split(' ')`
   * gives `[nombre, ...rest]` and `apellidos = rest.join(' ')`.
   */
  function SplitName(fullName: string): (r: (string, string))
    ensures ' ' !in r.0
  {
    var parts := Split(Trim(fullName), ' ');
    (parts[0], Join(parts[1..], ' '))
  }

  /** The text before the first space, then everything after it (or nothing). */
  lemma SplitNameShape(fullName: string)
    ensures var (nombre, apellidos) := SplitName(fullName);
            ' ' !in nombre &&
            (Trim(fullName) == nombre || Trim(fullName) == nombre + " " + apellidos)
  {
    var t := Trim(fullName);
    var parts := Split(t, ' ');
    JoinSplit(t, ' ');
  }

  /**
   * Splitting a name and joining the halves back with the display-name rule
   * gives the trimmed name again.
   */
  lemma {:induction false} NameRoundTrip(fullName: string)
    ensures DisplayName(Some(SplitName(fullName).0), Some(SplitName(fullName).1)) == Trim(fullName)
  {
    var t := Trim(fullName);
    var parts := Split(t, ' ');
    var nombre, apellidos := parts[0], Join(parts[1..], ' ');
    JoinSplit(t, ' ');
    assert IsWhitespace(' ');
    if |parts| == 1 {
      assert apellidos == "";
      assert nombre == t;
    } else {
      assert t == nombre + " " + apellidos;
      if t != [] {
        assert t[0] != ' ';
        assert nombre != "";
      }
    }
  }

  /** ASCII `toLowerCase`. */
  function LowerChar(c: char): (r: char)
    ensures !('A' <= r <= 'Z')
    ensures !('A' <= c <= 'Z') ==> r == c
    ensures 'A' <= c <= 'Z' ==> 'a' <= r <= 'z' && r as int == c as int + ('a' as int - 'A' as int)
  {
    if 'A' <= c <= 'Z' then (c as int + 32) as char else c
  }

  function ToLower(s: string): (r: string)
    ensures |r| == |s|
    ensures forall k :: 0 <= k < |r| ==> !('A' <= r[k] <= 'Z')
    ensures forall k :: 0 <= k < |s| ==> r[k] == LowerChar(s[k])
  {
    seq(|s|, k requires 0 <= k < |s| => LowerChar(s[k]))
  }

  /** Text with no upper-case ASCII letter is already lower case. */
  lemma ToLowerKeepsLowerCase(s: string)
    requires forall k :: 0 <= k < |s| ==> !('A' <= s[k] <= 'Z')
    ensures ToLower(s) == s
  {
  }

  lemma ToLowerIdempotent(s: string)
    ensures ToLower(ToLower(s)) == ToLower(s)
  {
  }
}
