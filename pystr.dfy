/**
 * The Python string built-ins this package relies on: `str.isupper`, `str.split`, `str.join`
 * and the substring test `sub in s`.
 */
module PyStr {

  /** A cased character in upper case (ASCII letters). */
  predicate IsUpperChar(c: char) { 'A' <= c <= 'Z' }

  /** A cased character in lower case (ASCII letters). */
  predicate IsLowerChar(c: char) { 'a' <= c <= 'z' }

  /** Some character of `s` is an upper-case letter. */
  predicate HasUpper(s: string)
  {
    exists i :: 0 <= i < |s| && IsUpperChar(s[i])
  }

  /** No character of `s` is a lower-case letter. */
  predicate NoLower(s: string)
  {
    forall i :: 0 <= i < |s| ==> !IsLowerChar(s[i])
  }

  /**
   * Python `s.isupper()`: at least one cased character and none of them lower case.
   * With no lower-case letter present, "a cased character" means an upper-case one.
   * "A_NEW_SETTING" passes; "lower_case_setting", "" and "_" do not.
   */
  predicate IsUpper(s: string)
  {
    HasUpper(s) && NoLower(s)
  }

  /** A name that starts with a capital and has no lower-case letter is upper case. */
  lemma UpperName(s: string)
    requires |s| > 0 && IsUpperChar(s[0]) && NoLower(s)
    ensures IsUpper(s)
  {
  }

  /** Python `sep.join(parts)` for a one-character separator. */
  function Join(parts: seq<string>, sep: char): string
  {
    if |parts| == 0 then ""
    else if |parts| == 1 then parts[0]
    else parts[0] + [sep] + Join(parts[1..], sep)
  }

  /**
   * Python `s.split(sep)` for a one-character separator: every occurrence separates two
   * pieces, so the result is never empty ("" gives [""]) and joining it gives `s` back.
   */
  function Split(s: string, sep: char): (parts: seq<string>)
    ensures |parts| >= 1
    ensures forall i :: 0 <= i < |parts| ==> sep !in parts[i]
    ensures Join(parts, sep) == s
  {
    if |s| == 0 then [""]
    else if s[0] == sep then
      var rest := Split(s[1..], sep);
      assert [sep] + s[1..] == s;
      [""] + rest
    else
      var rest := Split(s[1..], sep);
      var parts := [[s[0]] + rest[0]] + rest[1..];
      assert parts[1..] == rest[1..];
      assert [s[0]] + s[1..] == s;
      parts
  }

  /** Splitting `a + sep + b` where `a` has no separator yields `a` and then the pieces of `b`. */
  lemma {:induction false} SplitAfterPiece(a: string, b: string, sep: char)
    requires sep !in a
    ensures Split(a + [sep] + b, sep) == [a] + Split(b, sep)
  {
    if |a| == 0 {
      assert a + [sep] + b == [sep] + b;
      assert ([sep] + b)[1..] == b;
    } else {
      var t := a[1..] + [sep] + b;
      SplitAfterPiece(a[1..], b, sep);
      assert a + [sep] + b == [a[0]] + t;
      SplitPastChar(a[0], t, sep);
      assert [a[0]] + a[1..] == a;
    }
  }

  /** A first character other than the separator joins the first piece of the rest. */
  lemma SplitPastChar(c: char, t: string, sep: char)
    requires c != sep
    ensures Split([c] + t, sep) == [[c] + Split(t, sep)[0]] + Split(t, sep)[1..]
  {
    assert ([c] + t)[1..] == t;
  }

  /** A string without the separator splits into itself alone. */
  lemma {:induction false} SplitWithoutSeparator(a: string, sep: char)
    requires sep !in a
    ensures Split(a, sep) == [a]
  {
    if |a| > 0 {
      SplitWithoutSeparator(a[1..], sep);
      assert [a[0]] + a[1..] == a;
    }
  }

  /** The other round trip: pieces without the separator come back from splitting their join. */
  lemma {:induction false} SplitJoin(parts: seq<string>, sep: char)
    requires |parts| >= 1
    requires forall i :: 0 <= i < |parts| ==> sep !in parts[i]
    ensures Split(Join(parts, sep), sep) == parts
  {
    if |parts| == 1 {
      SplitWithoutSeparator(parts[0], sep);
    } else {
      SplitJoin(parts[1..], sep);
      SplitAfterPiece(parts[0], Join(parts[1..], sep), sep);
      assert [parts[0]] + parts[1..] == parts;
    }
  }

  /** Python `sub in s` on strings: `sub` occurs somewhere in `s` ("" occurs in every string). */
  predicate IsSubstring(sub: string, s: string)
  {
    exists i, j :: 0 <= i <= j <= |s| && s[i..j] == sub
  }

  /** A string occurs at the start of any string it begins. */
  lemma PrefixOccurs(a: string, b: string)
    ensures IsSubstring(a, a + b)
  {
    assert (a + b)[0..|a|] == a;
  }

  /** An occurrence in `b` is still one after something is put in front of `b`. */
  lemma OccursAfter(sub: string, a: string, b: string)
    requires IsSubstring(sub, b)
    ensures IsSubstring(sub, a + b)
  {
    var i, j :| 0 <= i <= j <= |b| && b[i..j] == sub;
    assert (a + b)[|a| + i..|a| + j] == b[i..j];
  }

  /** Each piece of `sep.join(parts)` occurs in the joined string. */
  lemma {:induction false} JoinedPiecesOccur(parts: seq<string>, sep: char)
    ensures forall i :: 0 <= i < |parts| ==> IsSubstring(parts[i], Join(parts, sep))
  {
    if |parts| == 1 {
      PrefixOccurs(parts[0], "");
      assert parts[0] + "" == parts[0];
    } else if |parts| > 1 {
      var rest := Join(parts[1..], sep);
      JoinedPiecesOccur(parts[1..], sep);
      assert Join(parts, sep) == parts[0] + ([sep] + rest);
      PrefixOccurs(parts[0], [sep] + rest);
      forall i | 1 <= i < |parts| ensures IsSubstring(parts[i], Join(parts, sep)) {
        assert parts[1..][i - 1] == parts[i];
        OccursAfter(parts[i], [sep], rest);
        OccursAfter(parts[i], parts[0], [sep] + rest);
      }
    }
  }
}
