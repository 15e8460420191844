/**
 * String helpers shared by the handlers: the upper-casing applied to asset
 * symbols and the `split('-')` used to take a pair symbol apart.
 */
module Text {

  /** Upper-casing of one character; only the ASCII letters change. */
  function UpperChar(c: char): char
  {
    if 'a' <= c <= 'z' then (c as int - 32) as char else c
  }

  predicate IsLowerAscii(c: char)
  {
    'a' <= c <= 'z'
  }

  /** `String.prototype.toUpperCase`, restricted to ASCII letters. */
  function Upper(s: string): (r: string)
    ensures |r| == |s|
    ensures forall i :: 0 <= i < |s| ==> r[i] == UpperChar(s[i])
  {
    seq(|s|, i requires 0 <= i < |s| => UpperChar(s[i]))
  }

  /** Upper-casing twice is upper-casing once: a normalised symbol is a fixed point. */
  lemma UpperIdempotent(s: string)
    ensures Upper(Upper(s)) == Upper(s)
    ensures forall i :: 0 <= i < |s| ==> !IsLowerAscii(Upper(s)[i])
  {
    forall i | 0 <= i < |s|
      ensures Upper(Upper(s))[i] == Upper(s)[i]
    {
    }
  }

  /**
   * `s.split(sep)`: the maximal pieces of `s` between occurrences of `sep`.
   * There is always at least one piece, and no piece contains `sep`.
   */
  function Split(s: string, sep: char): (parts: seq<string>)
    ensures |parts| >= 1
    ensures forall i :: 0 <= i < |parts| ==> sep !in parts[i]
    decreases |s|
  {
    if s == [] then [[]]
    else
      var rest := Split(s[1..], sep);
      if s[0] == sep then [[]] + rest
      else [[s[0]] + rest[0]] + rest[1..]
  }

  /** `parts.join(sep)`. */
  function Join(parts: seq<string>, sep: char): string
    requires |parts| >= 1
    decreases |parts|
  {
    if |parts| == 1 then parts[0] else parts[0] + [sep] + Join(parts[1..], sep)
  }

  /** Splitting loses nothing: joining the pieces back with the separator gives the input. */
  lemma {:induction false} JoinSplit(s: string, sep: char)
    ensures Join(Split(s, sep), sep) == s
    decreases |s|
  {
    if s != [] {
      var rest := Split(s[1..], sep);
      JoinSplit(s[1..], sep);
      if s[0] == sep {
        assert Split(s, sep) == [[]] + rest;
        assert Split(s, sep)[1..] == rest;
      } else {
        var parts := Split(s, sep);
        assert parts == [[s[0]] + rest[0]] + rest[1..];
        if |rest| == 1 {
          assert parts == [[s[0]] + rest[0]];
        } else {
          assert parts[1..] == rest[1..];
          assert Join(rest, sep) == rest[0] + [sep] + Join(rest[1..], sep);
        }
      }
    }
  }

  /** The first piece is the text before the first separator (all of `s` when there is none). */
  lemma {:induction false} SplitHead(s: string, sep: char, k: nat)
    requires k <= |s|
    requires sep !in s[..k]
    requires k == |s| || s[k] == sep
    ensures Split(s, sep)[0] == s[..k]
    decreases |s|
  {
    if s != [] && k > 0 {
      assert s[1..][..k - 1] == s[1..k];
      assert s[..k] == [s[0]] + s[1..k];
      SplitHead(s[1..], sep, k - 1);
    }
  }

  /** Every piece of a split is made of characters of the input. */
  lemma {:induction false} SplitChars(s: string, sep: char)
    ensures forall i, j :: 0 <= i < |Split(s, sep)| && 0 <= j < |Split(s, sep)[i]| ==> Split(s, sep)[i][j] in s
    decreases |s|
  {
    if s != [] {
      SplitChars(s[1..], sep);
      var rest := Split(s[1..], sep);
      var parts := Split(s, sep);
      forall i, j | 0 <= i < |parts| && 0 <= j < |parts[i]|
        ensures parts[i][j] in s
      {
        if s[0] == sep {
          assert parts[i] == ([[]] + rest)[i];
          assert i >= 1 && parts[i] == rest[i - 1];
          assert parts[i][j] in s[1..];
        } else if i == 0 {
          assert parts[0] == [s[0]] + rest[0];
          if j > 0 {
            assert parts[0][j] == rest[0][j - 1];
            assert parts[0][j] in s[1..];
          }
        } else {
          assert parts[i] == rest[i];
          assert parts[i][j] in s[1..];
        }
      }
    }
  }

  /** The pieces of an upper-cased symbol are already upper-case. */
  lemma SplitUpperIsUpper(s: string, sep: char, i: nat)
    requires i < |Split(Upper(s), sep)|
    ensures Upper(Split(Upper(s), sep)[i]) == Split(Upper(s), sep)[i]
  {
    var u := Upper(s);
    var p := Split(u, sep)[i];
    SplitChars(u, sep);
    forall j | 0 <= j < |p|
      ensures Upper(p)[j] == p[j]
    {
      assert p[j] in u;
      var k :| 0 <= k < |u| && u[k] == p[j];
      assert !IsLowerAscii(u[k]) by { UpperIdempotent(s); }
    }
  }

  /** Text without lower-case ASCII letters is its own upper-case form. */
  lemma UpperOfUpper(s: string)
    requires forall i :: 0 <= i < |s| ==> !IsLowerAscii(s[i])
    ensures Upper(s) == s
  {
  }

  lemma UpperUsd()
    ensures Upper("USD") == "USD"
  {
    UpperOfUpper("USD");
  }
}
