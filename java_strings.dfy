/**
 * The java.lang.String operations the verifier relies on, with Java's own edge cases:
 * `split` with a one-character literal delimiter (trailing empty fields dropped),
 * `String.join`, `trim` (every character up to U+0020 counts as blank), ASCII case
 * conversion, and the decimal rendering used by `%d` and by string concatenation of null.
 */
module JavaStrings {
  import opened Wrappers

  /** Every field of `s` between occurrences of `d`, empty fields (also trailing ones) included. */
  function SplitAll(s: string, d: char): (r: seq<string>)
    ensures |r| >= 1
    decreases |s|
  {
    if |s| == 0 then [""]
    else
      var rest := SplitAll(s[1..], d);
      if s[0] == d then [""] + rest
      else [[s[0]] + rest[0]] + rest[1..]
  }

  /** String.join(sep, parts). */
  function Join(parts: seq<string>, sep: string): string
  {
    if |parts| == 0 then ""
    else if |parts| == 1 then parts[0]
    else parts[0] + sep + Join(parts[1..], sep)
  }

  /** Each part followed by `sep`: what a StringBuilder holds after appending part and sep in a loop. */
  function Terminated(parts: seq<string>, sep: string): string
  {
    if |parts| == 0 then "" else Terminated(parts[..|parts| - 1], sep) + parts[|parts| - 1] + sep
  }

  /** The trailing-empty-field removal that String.split(regex) performs when its limit is 0. */
  function DropTrailingEmpty(r: seq<string>): (t: seq<string>)
    ensures |t| <= |r| && t == r[..|t|]
    ensures |t| == 0 || t[|t| - 1] != ""
  {
    if |r| > 0 && r[|r| - 1] == "" then DropTrailingEmpty(r[..|r| - 1]) else r
  }

  /**
   * s.split(String.valueOf(d)) for a delimiter that is not a regex metacharacter: without an
   * occurrence of `d` the result is `[s]` (even for the empty string); otherwise all fields,
   * less the trailing empty ones. No field contains the delimiter.
   */
  function Split(s: string, d: char): (r: seq<string>)
    ensures forall i :: 0 <= i < |r| ==> d !in r[i]
  {
    if d !in s then [s]
    else
      SplitAllFieldsFree(s, d);
      DropTrailingEmpty(SplitAll(s, d))
  }

  lemma {:induction false} SplitAllFieldsFree(s: string, d: char)
    ensures forall i :: 0 <= i < |SplitAll(s, d)| ==> d !in SplitAll(s, d)[i]
    decreases |s|
  {
    if |s| > 0 {
      SplitAllFieldsFree(s[1..], d);
      var rest := SplitAll(s[1..], d);
      if s[0] != d {
        assert forall c :: c in [s[0]] + rest[0] ==> c == s[0] || c in rest[0];
      }
    }
  }

  /** Joining the fields of `s` back with `d` gives `s` again. */
  lemma {:induction false} JoinSplitAll(s: string, d: char)
    ensures Join(SplitAll(s, d), [d]) == s
    decreases |s|
  {
    if |s| > 0 {
      JoinSplitAll(s[1..], d);
      var rest := SplitAll(s[1..], d);
      if s[0] == d {
        assert ([""] + rest)[1..] == rest;
      } else {
        var r := SplitAll(s, d);
        assert r == [[s[0]] + rest[0]] + rest[1..];
        if |rest| == 1 {
          assert Join(r, [d]) == [s[0]] + rest[0];
        } else {
          assert r[1..] == rest[1..];
          assert Join(rest, [d]) == rest[0] + [d] + Join(rest[1..], [d]);
        }
        assert s == [s[0]] + s[1..];
      }
    }
  }

  lemma {:induction false} SplitAllWithoutDelimiter(a: string, d: char)
    requires d !in a
    ensures SplitAll(a, d) == [a]
    decreases |a|
  {
    if |a| > 0 {
      assert d !in a[1..] by { assert forall c :: c in a[1..] ==> c in a; }
      SplitAllWithoutDelimiter(a[1..], d);
      assert [a[0]] + a[1..] == a;
    }
  }

  lemma {:induction false} SplitAllAfterField(a: string, b: string, d: char)
    requires d !in a
    ensures SplitAll(a + [d] + b, d) == [a] + SplitAll(b, d)
    decreases |a|
  {
    var s := a + [d] + b;
    if |a| == 0 {
      assert s[0] == d && s[1..] == b;
    } else {
      assert s[0] == a[0] && s[1..] == a[1..] + [d] + b;
      assert d !in a[1..] by { assert forall c :: c in a[1..] ==> c in a; }
      SplitAllAfterField(a[1..], b, d);
      assert [a[0]] + a[1..] == a;
    }
  }

  /** Splitting a join on a delimiter that no part contains gives the parts back. */
  lemma {:induction false} SplitAllOfJoin(fs: seq<string>, d: char)
    requires |fs| >= 1
    requires forall i :: 0 <= i < |fs| ==> d !in fs[i]
    ensures SplitAll(Join(fs, [d]), d) == fs
    decreases |fs|
  {
    if |fs| == 1 {
      SplitAllWithoutDelimiter(fs[0], d);
    } else {
      SplitAllOfJoin(fs[1..], d);
      SplitAllAfterField(fs[0], Join(fs[1..], [d]), d);
      assert [fs[0]] + fs[1..] == fs;
    }
  }

  /**
   * Java's split undoes a join of at least two delimiter-free parts whose last part is not empty
   * (an empty last part would be dropped as a trailing empty field).
   */
  lemma SplitOfJoin(fs: seq<string>, d: char)
    requires |fs| >= 2
    requires forall i :: 0 <= i < |fs| ==> d !in fs[i]
    requires fs[|fs| - 1] != ""
    ensures Split(Join(fs, [d]), d) == fs
  {
    var s := Join(fs, [d]);
    assert s == fs[0] + [d] + Join(fs[1..], [d]);
    assert s[|fs[0]|] == d;
    SplitAllOfJoin(fs, d);
  }

  lemma {:induction false} JoinAppend(ps: seq<string>, x: string, sep: string)
    requires |ps| >= 1
    ensures Join(ps + [x], sep) == Join(ps, sep) + sep + x
    decreases |ps|
  {
    if |ps| == 1 {
      assert (ps + [x])[1..] == [x];
    } else {
      assert (ps + [x])[1..] == ps[1..] + [x];
      JoinAppend(ps[1..], x, sep);
    }
  }

  /** Appending each part and then the separator, then cutting the last separator, is a join. */
  lemma {:induction false} TerminatedIsJoin(ps: seq<string>, sep: string)
    requires |ps| >= 1
    ensures Terminated(ps, sep) == Join(ps, sep) + sep
    decreases |ps|
  {
    if |ps| > 1 {
      var init := ps[..|ps| - 1];
      TerminatedIsJoin(init, sep);
      JoinAppend(init, ps[|ps| - 1], sep);
      assert init + [ps[|ps| - 1]] == ps;
    }
  }

  function LowerChar(c: char): char
  {
    if 'A' <= c <= 'Z' then (c as int + 32) as char else c
  }

  function UpperChar(c: char): char
  {
    if 'a' <= c <= 'z' then (c as int - 32) as char else c
  }

  /** String.toLowerCase, restricted to ASCII letters. */
  function ToLowerCase(s: string): string
  {
    seq(|s|, i requires 0 <= i < |s| => LowerChar(s[i]))
  }

  /** String.toUpperCase, restricted to ASCII letters. */
  function ToUpperCase(s: string): string
  {
    seq(|s|, i requires 0 <= i < |s| => UpperChar(s[i]))
  }

  function TrimLeft(s: string): (r: string)
    ensures r == "" || r[0] > ' '
    decreases |s|
  {
    if |s| > 0 && s[0] <= ' ' then TrimLeft(s[1..]) else s
  }

  function TrimRight(s: string): (r: string)
    ensures |r| <= |s| && r == s[..|r|]
    ensures r == "" || r[|r| - 1] > ' '
    decreases |s|
  {
    if |s| > 0 && s[|s| - 1] <= ' ' then TrimRight(s[..|s| - 1]) else s
  }

  /** String.trim: what is left neither starts nor ends with a character up to U+0020. */
  function Trim(s: string): (r: string)
    ensures r == "" || (r[0] > ' ' && r[|r| - 1] > ' ')
  {
    TrimRight(TrimLeft(s))
  }

  /** s.trim().isEmpty() */
  predicate IsBlank(s: string)
  {
    Trim(s) == ""
  }

  function DigitChar(n: nat): char
    requires n < 10
  {
    "0123456789"[n]
  }

  /** Decimal digits of a non-negative number, as `%d` prints it. */
  function NatToString(n: nat): string
    decreases n
  {
    if n < 10 then [DigitChar(n)] else NatToString(n / 10) + [DigitChar(n % 10)]
  }

  /** `%d` of a Java int or long. */
  function IntToString(i: int): string
  {
    if i < 0 then "-" + NatToString(-i) else NatToString(i)
  }

  /** A possibly-null string as string concatenation and `%s` render it. */
  function Str(s: Option<string>): string
  {
    match s
    case Some(v) => v
    case None => "null"
  }
}
