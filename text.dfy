/**
 * The JavaScript string built-ins the journal relies on, over `seq<char>`:
 * `String.prototype.trim`, `split` with a one-character separator,
 * `Array.prototype.join` and `startsWith`.
 */
module Text {
  import opened Wrappers

  /** JavaScript truthiness of an optional string: present and not "". */
  predicate Truthy(s: Option<string>) {
    s.Some? && s.value != []
  }

  /**
   * ECMAScript WhiteSpace and LineTerminator code points: what `trim` removes.
   * U+0009..U+000D are tab, line feed, vertical tab, form feed and carriage
   * return; U+2000..U+200A are the typographic spaces.
   */
  predicate IsSpace(c: char) {
    || ('\t' <= c <= '\r') || c == ' ' || c == '\U{00A0}' || c == '\U{1680}'
    || ('\U{2000}' <= c <= '\U{200A}') || c == '\U{2028}' || c == '\U{2029}'
    || c == '\U{202F}' || c == '\U{205F}' || c == '\U{3000}' || c == '\U{FEFF}'
  }

  /** Every character of `s` is white space (vacuously true of ""). */
  predicate AllSpace(s: string) {
    forall i :: 0 <= i < |s| ==> IsSpace(s[i])
  }

  /** `s` has no white space at either end. */
  predicate IsTrimmed(s: string) {
    s == [] || (!IsSpace(s[0]) && !IsSpace(s[|s| - 1]))
  }

  /** The length of the white space at the start of `s`. */
  function LeadingSpace(s: string): (n: nat)
    ensures n <= |s|
    ensures forall i :: 0 <= i < n ==> IsSpace(s[i])
    ensures n == |s| || !IsSpace(s[n])
  {
    if s == [] || !IsSpace(s[0]) then 0
    else
      var n := 1 + LeadingSpace(s[1..]);
      assert forall i :: 1 <= i < n ==> s[i] == s[1..][i - 1];
      n
  }

  /** The length of the white space at the end of `s`. */
  function TrailingSpace(s: string): (n: nat)
    ensures n <= |s|
    ensures forall i :: |s| - n <= i < |s| ==> IsSpace(s[i])
    ensures n == |s| || !IsSpace(s[|s| - n - 1])
  {
    if s == [] || !IsSpace(s[|s| - 1]) then 0
    else
      var p := s[..|s| - 1];
      var n := 1 + TrailingSpace(p);
      assert forall i :: |s| - n <= i < |s| - 1 ==> s[i] == p[i];
      n
  }

  /** `String.prototype.trim`: `s` without white space at either end. */
  function Trim(s: string): (r: string)
    ensures IsTrimmed(r)
    ensures |r| <= |s|
    ensures r == [] <==> AllSpace(s)
    ensures forall c :: c in r ==> c in s
  {
    var a := LeadingSpace(s);
    var t := s[a..];
    var b := TrailingSpace(t);
    var r := t[..|t| - b];
    assert r == [] <==> AllSpace(s) by {
      if a < |s| {
        assert t[0] == s[a];
        assert b < |t|;
      }
    }
    assert IsTrimmed(r) by {
      if r != [] {
        assert r[0] == s[a];
      }
    }
    assert forall c :: c in r ==> c in s by {
      forall c | c in r ensures c in s {
        var k :| 0 <= k < |r| && r[k] == c;
        assert s[a + k] == c;
      }
    }
    r
  }

  /**
   * What `trim` keeps is the middle of `s`: the white space before it and
   * the white space after it are all that is removed, and, the result being
   * trimmed, no white space of `s` outside those two runs is removed.
   */
  lemma {:induction false} TrimIsMiddle(s: string)
    ensures var r := Trim(s);
      exists a :: 0 <= a && a + |r| <= |s| && r == s[a..a + |r|] && AllSpace(s[..a]) && AllSpace(s[a + |r|..])
  {
    var a := LeadingSpace(s);
    var t := s[a..];
    var b := TrailingSpace(t);
    var r := t[..|t| - b];
    assert Trim(s) == r;
    assert r == s[a..a + |r|];
    assert AllSpace(s[..a]);
    var rest := s[a + |r|..];
    forall i | 0 <= i < |rest| ensures IsSpace(rest[i]) {
      assert rest[i] == t[|t| - b + i];
    }
  }

  /** Trimming a string that has no white space at its ends leaves it as it is. */
  lemma TrimOfTrimmed(s: string)
    requires IsTrimmed(s)
    ensures Trim(s) == s
  {
    assert s[0..] == s;
  }

  /** Trimming twice is trimming once. */
  lemma TrimIdempotent(s: string)
    ensures Trim(Trim(s)) == Trim(s)
  {
    TrimOfTrimmed(Trim(s));
  }

  /** Leading white space before a string that does not start with white space is all of the leading white space. */
  lemma {:induction false} LeadingSpaceOfPrefix(sp: string, t: string)
    requires AllSpace(sp) && (t == [] || !IsSpace(t[0]))
    ensures LeadingSpace(sp + t) == |sp|
    decreases |sp|
  {
    if sp == [] {
      assert sp + t == t;
    } else {
      assert (sp + t)[1..] == sp[1..] + t;
      LeadingSpaceOfPrefix(sp[1..], t);
    }
  }

  /** White space followed by a trimmed string trims to that string. */
  lemma {:induction false} TrimAfterSpace(sp: string, t: string)
    requires AllSpace(sp) && IsTrimmed(t)
    ensures Trim(sp + t) == t
  {
    LeadingSpaceOfPrefix(sp, t);
    assert (sp + t)[|sp|..] == t;
    assert t[..|t|] == t;
  }

  /** Number of occurrences of `c` in `s`. */
  function Occurrences(s: string, c: char): (n: nat)
    ensures n <= |s|
    ensures n == 0 <==> c !in s
  {
    if s == [] then 0 else (if s[0] == c then 1 else 0) + Occurrences(s[1..], c)
  }

  /** `parts.join(sep)`: the parts with `sep` between neighbours ("" for no parts). */
  function Join(parts: seq<string>, sep: string): string {
    if |parts| == 0 then ""
    else if |parts| == 1 then parts[0]
    else parts[0] + sep + Join(parts[1..], sep)
  }

  /** Prefixing a character to the first piece prefixes it to the joined string. */
  lemma {:induction false} JoinExtendFirst(c: char, parts: seq<string>, sep: string)
    requires parts != []
    ensures Join([[c] + parts[0]] + parts[1..], sep) == [c] + Join(parts, sep)
  {
    var r := [[c] + parts[0]] + parts[1..];
    if |parts| > 1 {
      assert r[1..] == parts[1..];
    }
  }

  /** A piece that starts a new separator-free piece run stays separator-free when extended by a non-separator. */
  lemma {:induction false} ExtendFirstKeepsFree(c: char, parts: seq<string>, sep: char)
    requires parts != [] && c != sep
    requires forall i :: 0 <= i < |parts| ==> sep !in parts[i]
    ensures forall i :: 0 <= i < |parts| ==> sep !in ([[c] + parts[0]] + parts[1..])[i]
  {
    var r := [[c] + parts[0]] + parts[1..];
    forall i | 0 <= i < |parts| ensures sep !in r[i] {
      if i > 0 {
        assert r[i] == parts[i];
      }
    }
  }

  /**
   * `s.split(sep)` for a one-character separator: the pieces between
   * consecutive separators, empty pieces included; "" splits into [""].
   */
  function Split(s: string, sep: char): (r: seq<string>)
    ensures |r| == Occurrences(s, sep) + 1
    ensures forall i :: 0 <= i < |r| ==> sep !in r[i]
    ensures Join(r, [sep]) == s
    decreases |s|
  {
    if s == [] then [[]]
    else
      var rest := Split(s[1..], sep);
      assert s == [s[0]] + s[1..];
      if s[0] == sep then
        [[]] + rest
      else
        JoinExtendFirst(s[0], rest, [sep]);
        ExtendFirstKeepsFree(s[0], rest, sep);
        [[s[0]] + rest[0]] + rest[1..]
  }

  /** A word free of the separator, then the separator, then the rest splits into that word followed by the rest's pieces. */
  lemma {:induction false} SplitAfterWord(w: string, sep: char, rest: string)
    requires sep !in w
    ensures Split(w + [sep] + rest, sep) == [w] + Split(rest, sep)
    decreases |w|
  {
    var s := w + [sep] + rest;
    if w == [] {
      assert s[1..] == rest;
    } else {
      assert s[1..] == w[1..] + [sep] + rest;
      SplitAfterWord(w[1..], sep, rest);
      var tail := Split(s[1..], sep);
      assert tail[0] == w[1..] && tail[1..] == Split(rest, sep);
      assert s[0] == w[0] && s[0] != sep;
      assert Split(s, sep) == [[s[0]] + tail[0]] + tail[1..];
      assert [s[0]] + w[1..] == w;
    }
  }

  /** A string without the separator splits into itself alone. */
  lemma {:induction false} SplitWithoutSeparator(s: string, sep: char)
    requires sep !in s
    ensures Split(s, sep) == [s]
  {
    assert Occurrences(s, sep) == 0;
    var r := Split(s, sep);
    assert |r| == 1;
    assert Join(r, [sep]) == r[0];
  }

  /** `s.startsWith(prefix)`. */
  predicate StartsWith(s: string, prefix: string) {
    |prefix| <= |s| && s[..|prefix|] == prefix
  }
}
