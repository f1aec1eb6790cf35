/** The string operations the registry uses to build and take apart file paths. */
module Text {

  predicate IsDigit(c: char) {
    '0' <= c <= '9'
  }

  predicate AllDigits(s: string) {
    forall i | 0 <= i < |s| :: IsDigit(s[i])
  }

  function DigitChar(d: nat): (c: char)
    requires d < 10
    ensures IsDigit(c) && c as int - '0' as int == d
  {
    ('0' as int + d) as char
  }

  /** The decimal text of a non-negative integer. */
  function NatToString(n: nat): (s: string)
    ensures |s| > 0 && AllDigits(s)
  {
    if n < 10 then [DigitChar(n)] else NatToString(n / 10) + [DigitChar(n % 10)]
  }

  /** The value of a string of decimal digits (Python's `int(s)`). */
  function DigitsValue(s: string): nat
    requires AllDigits(s)
  {
    if s == [] then 0
    else DigitsValue(s[..|s| - 1]) * 10 + (s[|s| - 1] as int - '0' as int)
  }

  lemma {:induction false} NatToStringRoundTrip(n: nat)
    ensures DigitsValue(NatToString(n)) == n
  {
    if n >= 10 {
      var s := NatToString(n);
      assert s[..|s| - 1] == NatToString(n / 10);
      NatToStringRoundTrip(n / 10);
    }
  }

  /** Distinct numbers are printed as distinct strings. */
  lemma NatToStringInjective(a: nat, b: nat)
    ensures NatToString(a) == NatToString(b) ==> a == b
  {
    NatToStringRoundTrip(a);
    NatToStringRoundTrip(b);
  }

  /**
   * Python's `s.split(c)[-1]`: the part of `s` after its last `c`,
   * or all of `s` when it has no `c`.
   */
  function AfterLast(s: string, c: char): string {
    if s == [] then []
    else if s[|s| - 1] == c then []
    else AfterLast(s[..|s| - 1], c) + [s[|s| - 1]]
  }

  /**
   * The last field is a suffix without `c`, and when it is not the whole
   * string the character before it is a `c`.
   */
  lemma {:induction false} AfterLastShape(s: string, c: char)
    ensures var r := AfterLast(s, c);
      && |r| <= |s| && r == s[|s| - |r|..]
      && c !in r
      && (|r| < |s| ==> s[|s| - |r| - 1] == c)
  {
    if s != [] && s[|s| - 1] != c {
      var init := s[..|s| - 1];
      AfterLastShape(init, c);
      var r0 := AfterLast(init, c);
      var r := AfterLast(s, c);
      assert r == r0 + [s[|s| - 1]];
      assert s[|s| - |r|..] == init[|init| - |r0|..] + [s[|s| - 1]];
      if |r| < |s| {
        assert s[|s| - |r| - 1] == init[|init| - |r0| - 1];
      }
    }
  }

  /** Splitting `a + [c] + b` on `c` ends with `b` whenever `b` holds no `c`. */
  lemma {:induction false} AfterLastJoin(a: string, c: char, b: string)
    requires c !in b
    ensures AfterLast(a + [c] + b, c) == b
  {
    var s := a + [c] + b;
    if b != [] {
      var b' := b[..|b| - 1];
      assert s[..|s| - 1] == a + [c] + b';
      AfterLastJoin(a, c, b');
      assert b == b' + [b[|b| - 1]];
    }
  }

  /** A string without `c` is its own last field. */
  lemma {:induction false} AfterLastNone(s: string, c: char)
    requires c !in s
    ensures AfterLast(s, c) == s
  {
    if s != [] {
      AfterLastNone(s[..|s| - 1], c);
      assert s == s[..|s| - 1] + [s[|s| - 1]];
    }
  }

  /** A character absent from a string is absent from its last field. */
  lemma {:induction false} AfterLastKeepsAbsent(s: string, c: char, d: char)
    requires d !in s
    ensures d !in AfterLast(s, c)
  {
    if s != [] && s[|s| - 1] != c {
      var init := s[..|s| - 1];
      assert d !in init by {
        forall i | 0 <= i < |init| ensures init[i] != d {
          assert init[i] == s[i];
        }
      }
      AfterLastKeepsAbsent(init, c, d);
    }
  }

  predicate AllDots(s: string) {
    forall i | 0 <= i < |s| :: s[i] == '.'
  }

  /** The part of a file name before its last dot. */
  function Root(base: string): string
    requires '.' in base
  {
    AfterLastShape(base, '.');
    base[..|base| - |AfterLast(base, '.')| - 1]
  }

  /**
   * The extension of a POSIX path, without its dot: the text after the last dot of
   * the last path component, empty when that component has no dot or when
   * only dots precede its last dot (a leading-dot name such as ".mp3").
   */
  function SplitExtension(path: string): (ext: string)
    ensures '.' !in ext && '/' !in ext
  {
    var base := AfterLast(path, '/');
    AfterLastShape(path, '/');
    AfterLastShape(base, '.');
    if '.' !in base || AllDots(Root(base)) then "" else AfterLast(base, '.')
  }

  /**
   * For an ordinary file name `stem.ext` both ways of taking the extension
   * agree; for a name without a dot `SplitExtension` gives "" while
   * `AfterLast(name, '.')` gives the whole name.
   */
  lemma {:induction false} ExtensionsAgree(stem: string, ext: string)
    requires '/' !in stem && '/' !in ext && '.' !in ext
    requires !AllDots(stem)
    ensures SplitExtension(stem + "." + ext) == AfterLast(stem + "." + ext, '.') == ext
  {
    var path := stem + "." + ext;
    assert AfterLast(path, '/') == path by {
      assert path == stem + ['.'] + ext;
      AfterLastNone(path, '/');
    }
    assert AfterLast(path, '.') == ext by {
      AfterLastJoin(stem, '.', ext);
    }
    assert '.' in path && Root(path) == stem by {
      assert path[|stem|] == '.';
    }
  }

  lemma ExtensionOfDotlessName(name: string)
    requires '.' !in name
    ensures SplitExtension(name) == "" && AfterLast(name, '.') == name
  {
    AfterLastNone(name, '.');
    AfterLastKeepsAbsent(name, '/', '.');
  }
}
