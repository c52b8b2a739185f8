/**
 * The snake-case naming strategy the ORM uses to name tables, columns and
 * relations. A custom name given in an entity decorator wins when it is
 * present and non-empty (JavaScript's `||`); otherwise the name is derived
 * with `snakeCase`.
 */
module NamingStrategy {
  import opened Wrappers
  import opened Strings

  /** `custom || fallback`: an absent or empty custom name falls back. */
  function OrElse(custom: Option<string>, fallback: string): (r: string)
    ensures custom.Some? && custom.value != "" ==> r == custom.value
    ensures custom.None? || custom.value == "" ==> r == fallback
  {
    if custom.Some? && custom.value != "" then custom.value else fallback
  }

  /** `Array.prototype.join`. */
  function Join(parts: seq<string>, sep: string): string
  {
    if parts == [] then ""
    else if |parts| == 1 then parts[0]
    else parts[0] + sep + Join(parts[1..], sep)
  }

  function TableName(className: string, customName: Option<string>): (r: string)
    ensures customName.Some? && customName.value != "" ==> r == customName.value
    ensures customName.None? || customName.value == "" ==> r == SnakeCase(className) && NoUpper(r)
  {
    OrElse(customName, SnakeCase(className))
  }

  /**
   * The column name as written: the snake-cased embedded prefixes directly
   * followed by the column's own name, with nothing between the two.
   */
  function ColumnName(propertyName: string, customName: Option<string>, embeddedPrefixes: seq<string>): (r: string)
    ensures var name := OrElse(customName, SnakeCase(propertyName));
      |name| <= |r| && r[|r| - |name|..] == name
    ensures customName.None? || customName.value == "" ==> NoUpper(r)
  {
    SnakeCase(Join(embeddedPrefixes, "_")) + OrElse(customName, SnakeCase(propertyName))
  }

  function RelationName(propertyName: string): (r: string)
    ensures NoUpper(r)
    ensures SnakeCase(r) == r
  {
    SnakeCaseIdempotent(propertyName);
    SnakeCase(propertyName)
  }

  /** Outside an embedded entity the column name is the custom name, or else the snake-cased property name. */
  lemma ColumnNameWithoutPrefixes(propertyName: string, customName: Option<string>)
    ensures ColumnName(propertyName, customName, []) == OrElse(customName, SnakeCase(propertyName))
  {
    NoUpperUnchanged("");
  }

  /** Names derived rather than given (no custom name, or an empty one) carry no capitals. */
  lemma DerivedNamesHaveNoUpper(className: string, propertyName: string, customName: Option<string>,
                                embeddedPrefixes: seq<string>)
    requires customName.None? || customName.value == ""
    ensures NoUpper(TableName(className, customName))
    ensures NoUpper(ColumnName(propertyName, customName, embeddedPrefixes))
    ensures NoUpper(RelationName(propertyName))
  {
  }

  // ---------------------------------------------------------------- the corrected column name

  /** The column name with an underscore after the prefixes, as a snake-case strategy is meant to give. */
  function ColumnNameSeparated(propertyName: string, customName: Option<string>, embeddedPrefixes: seq<string>): string
  {
    SnakeCase(Join(embeddedPrefixes + [""], "_")) + OrElse(customName, SnakeCase(propertyName))
  }

  lemma {:induction false} JoinWithEmptyLast(parts: seq<string>, sep: string)
    requires parts != []
    ensures Join(parts + [""], sep) == Join(parts, sep) + sep
    decreases |parts|
  {
    if |parts| > 1 {
      assert (parts + [""])[1..] == parts[1..] + [""];
      JoinWithEmptyLast(parts[1..], sep);
    } else {
      assert (parts + [""])[1..] == [""];
    }
  }

  lemma {:induction false} SplitAcronymsUnderscore(s: string)
    ensures SplitAcronyms(s + "_") == SplitAcronyms(s) + "_"
    decreases |s|
  {
    if AcronymAt(s) {
      assert (s + "_")[..3] == s[..3];
      assert (s + "_")[3..] == s[3..] + "_";
      SplitAcronymsUnderscore(s[3..]);
    } else if s != [] {
      assert !AcronymAt(s + "_");
      assert (s + "_")[1..] == s[1..] + "_";
      SplitAcronymsUnderscore(s[1..]);
    }
  }

  lemma {:induction false} SplitCamelUnderscore(s: string)
    ensures SplitCamel(s + "_") == SplitCamel(s) + "_"
    decreases |s|
  {
    var t := s + "_";
    if CamelAt(s) {
      assert t[0] == s[0] && t[1] == s[1] && CamelAt(t);
      assert t[2..] == s[2..] + "_";
      SplitCamelUnderscore(s[2..]);
      assert SplitCamel(t) == [s[0], '_', s[1]] + SplitCamel(s[2..] + "_");
    } else if s != [] {
      assert t[0] == s[0] && !CamelAt(t);
      assert t[1..] == s[1..] + "_";
      SplitCamelUnderscore(s[1..]);
      assert SplitCamel(t) == [s[0]] + SplitCamel(s[1..] + "_");
    }
  }

  /** A trailing underscore passes through `snakeCase` untouched. */
  lemma SnakeCaseUnderscore(s: string)
    ensures SnakeCase(s + "_") == SnakeCase(s) + "_"
  {
    SplitAcronymsUnderscore(s);
    SplitCamelUnderscore(SplitAcronyms(s));
    assert Lower(SplitCamel(SplitAcronyms(s)) + "_") == Lower(SplitCamel(SplitAcronyms(s))) + "_";
  }

  /** The corrected name is the prefix part, an underscore, then the column's own name. */
  lemma ColumnNameSeparatedJoins(propertyName: string, customName: Option<string>, embeddedPrefixes: seq<string>)
    requires embeddedPrefixes != []
    ensures ColumnNameSeparated(propertyName, customName, embeddedPrefixes)
      == SnakeCase(Join(embeddedPrefixes, "_")) + "_" + OrElse(customName, SnakeCase(propertyName))
  {
    JoinWithEmptyLast(embeddedPrefixes, "_");
    SnakeCaseUnderscore(Join(embeddedPrefixes, "_"));
  }

  /** Outside an embedded entity the two definitions agree. */
  lemma ColumnNameSeparatedWithoutPrefixes(propertyName: string, customName: Option<string>)
    ensures ColumnNameSeparated(propertyName, customName, []) == ColumnName(propertyName, customName, [])
  {
    assert [] + [""] == [""];
    NoUpperUnchanged("");
  }

  // ---------------------------------------------------------------- the two side by side

  /**
   * For a lower-case prefix and property, the as-written name runs the two
   * together, where the corrected one separates them.
   */
  lemma PrefixedColumnNames(prefix: string, propertyName: string)
    requires NoUpper(prefix) && NoUpper(propertyName)
    ensures ColumnName(propertyName, None, [prefix]) == prefix + propertyName
    ensures ColumnNameSeparated(propertyName, None, [prefix]) == prefix + "_" + propertyName
  {
    NoUpperUnchanged(prefix);
    NoUpperUnchanged(propertyName);
    ColumnNameSeparatedJoins(propertyName, None, [prefix]);
  }

  /** The property `city` of an embedded `address`: `addresscity` as written, `address_city` corrected. */
  lemma EmbeddedColumnExample()
    ensures ColumnName("city", None, ["address"]) == "addresscity"
    ensures ColumnNameSeparated("city", None, ["address"]) == "address_city"
  {
    var prefix, name := "address", "city";
    ExampleParts(prefix, name);
    PrefixedColumnNames(prefix, name);
  }

  lemma ExampleParts(prefix: string, name: string)
    requires prefix == "address" && name == "city"
    ensures NoUpper(prefix) && NoUpper(name)
    ensures prefix + name == "addresscity" && prefix + "_" + name == "address_city"
  {
  }
}
