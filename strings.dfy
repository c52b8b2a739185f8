/**
 * `snakeCase`: two global regular-expression replacements that insert `_`,
 * then lower-casing. Characters are taken to be ASCII.
 *
 * A global replacement scans left to right, resumes after each match and
 * never rescans what it inserted; the scans below do the same. Each is also
 * given a pointwise reference definition (an underscore after every position
 * where the pattern begins), and the two are proved equal: the patterns
 * cannot overlap, so skipping past a match loses nothing.
 */
module Strings {

  predicate IsUpper(c: char) { 'A' <= c <= 'Z' }
  predicate IsLower(c: char) { 'a' <= c <= 'z' }
  predicate IsDigit(c: char) { '0' <= c <= '9' }

  function ToLower(c: char): (d: char)
    ensures !IsUpper(d)
    ensures IsUpper(c) ==> IsLower(d) && d as int - 'a' as int == c as int - 'A' as int
    ensures !IsUpper(c) ==> d == c
  {
    if IsUpper(c) then (c as int - 'A' as int + 'a' as int) as char else c
  }

  /** `toLowerCase`, restricted to ASCII. */
  function Lower(s: string): (r: string)
    ensures |r| == |s|
    ensures forall i :: 0 <= i < |s| ==> r[i] == ToLower(s[i])
  {
    if s == [] then [] else [ToLower(s[0])] + Lower(s[1..])
  }

  predicate NoUpper(s: string)
  {
    forall i :: 0 <= i < |s| ==> !IsUpper(s[i])
  }

  // ---------------------------------------------------------------- the two replacements

  /** Where `/([A-Z])([A-Z])([a-z])/` begins: two capitals and a lower-case letter. */
  predicate AcronymAt(s: string)
  {
    |s| >= 3 && IsUpper(s[0]) && IsUpper(s[1]) && IsLower(s[2])
  }

  /** Where `/([a-z0-9])([A-Z])/` begins: a lower-case letter or digit and a capital. */
  predicate CamelAt(s: string)
  {
    |s| >= 2 && (IsLower(s[0]) || IsDigit(s[0])) && IsUpper(s[1])
  }

  /** The first replacement, `ABc` to `A_Bc`, as the global scan performs it. */
  function SplitAcronyms(s: string): (r: string)
    ensures |s| <= |r|
  {
    if AcronymAt(s) then [s[0], '_', s[1], s[2]] + SplitAcronyms(s[3..])
    else if s == [] then []
    else [s[0]] + SplitAcronyms(s[1..])
  }

  /** The second replacement, `aC` to `a_C`, as the global scan performs it. */
  function SplitCamel(s: string): (r: string)
    ensures |s| <= |r|
  {
    if CamelAt(s) then [s[0], '_', s[1]] + SplitCamel(s[2..])
    else if s == [] then []
    else [s[0]] + SplitCamel(s[1..])
  }

  /** `snakeCase`: the result has no capitals and is never shorter than the input. */
  function SnakeCase(s: string): (r: string)
    ensures NoUpper(r)
    ensures |s| <= |r|
  {
    Lower(SplitCamel(SplitAcronyms(s)))
  }

  // ---------------------------------------------------------------- reference definitions

  /** An underscore after every character at which the first pattern begins. */
  function AcronymRef(s: string): string
  {
    if s == [] then [] else [s[0]] + (if AcronymAt(s) then "_" else "") + AcronymRef(s[1..])
  }

  /** An underscore after every character at which the second pattern begins. */
  function CamelRef(s: string): string
  {
    if s == [] then [] else [s[0]] + (if CamelAt(s) then "_" else "") + CamelRef(s[1..])
  }

  lemma {:induction false} SplitAcronymsIsPointwise(s: string)
    ensures SplitAcronyms(s) == AcronymRef(s)
    decreases |s|
  {
    if AcronymAt(s) {
      SplitAcronymsIsPointwise(s[3..]);
      assert s[1..][1..] == s[2..] && s[2..][1..] == s[3..];
      assert !AcronymAt(s[1..]) && !AcronymAt(s[2..]);
      calc {
        AcronymRef(s);
        [s[0]] + "_" + AcronymRef(s[1..]);
        [s[0]] + "_" + ([s[1]] + AcronymRef(s[2..]));
        [s[0]] + "_" + ([s[1]] + ([s[2]] + AcronymRef(s[3..])));
        [s[0], '_', s[1], s[2]] + AcronymRef(s[3..]);
      }
    } else if s != [] {
      SplitAcronymsIsPointwise(s[1..]);
    }
  }

  lemma {:induction false} SplitCamelIsPointwise(s: string)
    ensures SplitCamel(s) == CamelRef(s)
    decreases |s|
  {
    if CamelAt(s) {
      SplitCamelIsPointwise(s[2..]);
      assert s[1..][1..] == s[2..];
      assert !CamelAt(s[1..]);
      calc {
        CamelRef(s);
        [s[0]] + "_" + CamelRef(s[1..]);
        [s[0]] + "_" + ([s[1]] + CamelRef(s[2..]));
        [s[0], '_', s[1]] + CamelRef(s[2..]);
      }
    } else if s != [] {
      SplitCamelIsPointwise(s[1..]);
    }
  }

  // ---------------------------------------------------------------- only underscores are inserted

  /** `b` is `a` with underscores inserted. */
  predicate Inserted(a: string, b: string)
    decreases |b|
  {
    if b == [] then a == []
    else (a != [] && b[0] == a[0] && Inserted(a[1..], b[1..])) || (b[0] == '_' && Inserted(a, b[1..]))
  }

  lemma {:induction false} InsertedLonger(a: string, b: string)
    requires Inserted(a, b)
    ensures |a| <= |b|
    decreases |b|
  {
    if b != [] {
      if a != [] && b[0] == a[0] && Inserted(a[1..], b[1..]) {
        InsertedLonger(a[1..], b[1..]);
      } else {
        InsertedLonger(a, b[1..]);
      }
    }
  }

  lemma {:induction false} InsertedTransitive(a: string, b: string, c: string)
    requires Inserted(a, b) && Inserted(b, c)
    ensures Inserted(a, c)
    decreases |c|
  {
    if c != [] {
      if b != [] && c[0] == b[0] && Inserted(b[1..], c[1..]) {
        if a != [] && b[0] == a[0] && Inserted(a[1..], b[1..]) {
          InsertedTransitive(a[1..], b[1..], c[1..]);
        } else {
          InsertedTransitive(a, b[1..], c[1..]);
        }
      } else {
        InsertedTransitive(a, b, c[1..]);
      }
    }
  }

  lemma {:induction false} InsertedLower(a: string, b: string)
    requires Inserted(a, b)
    ensures Inserted(Lower(a), Lower(b))
    decreases |b|
  {
    if b != [] {
      assert Lower(b)[1..] == Lower(b[1..]);
      if a != [] && b[0] == a[0] && Inserted(a[1..], b[1..]) {
        assert Lower(a)[1..] == Lower(a[1..]);
        InsertedLower(a[1..], b[1..]);
      } else {
        InsertedLower(a, b[1..]);
      }
    }
  }

  lemma {:induction false} InsertedRefl(a: string)
    ensures Inserted(a, a)
    decreases |a|
  {
    if a != [] {
      InsertedRefl(a[1..]);
    }
  }

  lemma {:induction false} SplitAcronymsInserts(s: string)
    ensures Inserted(s, SplitAcronyms(s))
    decreases |s|
  {
    var r := SplitAcronyms(s);
    if AcronymAt(s) {
      SplitAcronymsInserts(s[3..]);
      var rest := SplitAcronyms(s[3..]);
      assert r[1..] == ['_', s[1], s[2]] + rest;
      assert r[2..] == [s[1], s[2]] + rest;
      assert r[3..] == [s[2]] + rest && r[4..] == rest;
      assert s[1..][1..] == s[2..] && s[2..][1..] == s[3..];
      assert Inserted(s[2..], r[3..]);
      assert Inserted(s[1..], r[2..]);
    } else if s != [] {
      SplitAcronymsInserts(s[1..]);
      assert r[1..] == SplitAcronyms(s[1..]);
    }
  }

  lemma {:induction false} SplitCamelInserts(s: string)
    ensures Inserted(s, SplitCamel(s))
    decreases |s|
  {
    var r := SplitCamel(s);
    if CamelAt(s) {
      SplitCamelInserts(s[2..]);
      var rest := SplitCamel(s[2..]);
      assert r[1..] == ['_', s[1]] + rest;
      assert r[2..] == [s[1]] + rest && r[3..] == rest;
      assert s[1..][1..] == s[2..];
      assert Inserted(s[1..], r[2..]);
    } else if s != [] {
      SplitCamelInserts(s[1..]);
      assert r[1..] == SplitCamel(s[1..]);
    }
  }

  /** `snakeCase(s)` is `s` lower-cased with underscores inserted, so it is never shorter than `s`. */
  lemma SnakeCaseInserts(s: string)
    ensures Inserted(Lower(s), SnakeCase(s))
    ensures |SnakeCase(s)| >= |s|
  {
    SplitAcronymsInserts(s);
    SplitCamelInserts(SplitAcronyms(s));
    InsertedTransitive(s, SplitAcronyms(s), SplitCamel(SplitAcronyms(s)));
    InsertedLower(s, SplitCamel(SplitAcronyms(s)));
    InsertedLonger(Lower(s), SnakeCase(s));
  }

  // ---------------------------------------------------------------- lower case in, same out

  lemma {:induction false} SplitAcronymsKeepsLower(s: string)
    requires NoUpper(s)
    ensures SplitAcronyms(s) == s
    decreases |s|
  {
    if s != [] {
      assert !IsUpper(s[0]);
      SplitAcronymsKeepsLower(s[1..]);
    }
  }

  lemma {:induction false} SplitCamelKeepsLower(s: string)
    requires NoUpper(s)
    ensures SplitCamel(s) == s
    decreases |s|
  {
    if s != [] {
      assert |s| >= 2 ==> !IsUpper(s[1]);
      SplitCamelKeepsLower(s[1..]);
    }
  }

  /** A string without capitals comes back unchanged: neither pattern can match and lower-casing changes nothing. */
  lemma NoUpperUnchanged(s: string)
    requires NoUpper(s)
    ensures SnakeCase(s) == s
  {
    SplitAcronymsKeepsLower(s);
    SplitCamelKeepsLower(s);
  }

  lemma SnakeCaseIdempotent(s: string)
    ensures SnakeCase(SnakeCase(s)) == SnakeCase(s)
  {
    NoUpperUnchanged(SnakeCase(s));
  }

  // ---------------------------------------------------------------- examples

  /** Without two capitals in a row, the first replacement finds nothing. */
  lemma {:induction false} NoAdjacentCapitals(s: string)
    requires forall i :: 0 <= i < |s| - 1 ==> !(IsUpper(s[i]) && IsUpper(s[i + 1]))
    ensures SplitAcronyms(s) == s
    decreases |s|
  {
    if s != [] {
      NoAdjacentCapitals(s[1..]);
    }
  }

  /**
   * A lower-case word ending in a lower-case letter or digit, followed by a
   * capitalised word, gets one underscore between the two.
   */
  lemma {:induction false} CamelJoin(a: string, b: string)
    requires a != [] && NoUpper(a) && (IsLower(a[|a| - 1]) || IsDigit(a[|a| - 1]))
    requires b != [] && IsUpper(b[0]) && NoUpper(b[1..])
    ensures SplitCamel(a + b) == a + "_" + b
    decreases |a|
  {
    if |a| == 1 {
      assert (a + b)[2..] == b[1..];
      SplitCamelKeepsLower(b[1..]);
      assert b == [b[0]] + b[1..];
    } else {
      assert (a + b)[1..] == a[1..] + b;
      CamelJoin(a[1..], b);
    }
  }

  /** `snakeCase` of a lower-case word and a capitalised word: the two words lower-cased, joined by `_`. */
  lemma CamelWords(a: string, b: string)
    requires a != [] && NoUpper(a) && (IsLower(a[|a| - 1]) || IsDigit(a[|a| - 1]))
    requires b != [] && IsUpper(b[0]) && NoUpper(b[1..])
    ensures SnakeCase(a + b) == a + "_" + Lower(b)
  {
    var s := a + b;
    forall i | 0 <= i < |s| - 1
      ensures !(IsUpper(s[i]) && IsUpper(s[i + 1]))
    {
      if i < |a| - 1 {
        assert s[i] == a[i];
      } else if i >= |a| {
        assert s[i + 1] == b[1..][i - |a|];
      }
    }
    NoAdjacentCapitals(s);
    CamelJoin(a, b);
    assert Lower(a + "_" + b) == Lower(a) + "_" + Lower(b);
    NoUpperUnchanged(a);
    SplitAcronymsKeepsLower(a);
    SplitCamelKeepsLower(a);
  }

  lemma CamelCaseExample()
    ensures SnakeCase("paymentAccount") == "payment_account"
  {
    var a, b := "payment", "Account";
    ExampleWords(a, b);
    CamelWords(a, b);
    assert a + b == "paymentAccount";
  }

  lemma ExampleWords(a: string, b: string)
    requires a == "payment" && b == "Account"
    ensures NoUpper(a) && IsLower(a[|a| - 1]) && IsUpper(b[0]) && NoUpper(b[1..])
    ensures a + "_" + Lower(b) == "payment_account"
  {
    assert Lower(b) == "account";
  }

  /** A run of capitals followed by a capital and a lower-case letter splits before the last capital: `ABc` becomes `a_bc`. */
  lemma AcronymExample()
    ensures SnakeCase("ABc") == "a_bc"
  {
    SplitAcronymsIsPointwise("ABc");
    SplitCamelIsPointwise("A_Bc");
  }
}
