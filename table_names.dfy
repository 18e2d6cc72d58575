// Fully qualified warehouse table names: catalog, schema (each when set)
// and table, joined with ".".
module TableNames {
  import opened Wrappers
  import opened Common

  const SEP: char := '.'

  /** The warehouse settings the adapters read; an unset or empty catalog or schema is skipped. */
  datatype WarehouseSettings = WarehouseSettings(
    catalog: Option<string>,
    schema: Option<string>,
    tablePrefix: string,
    useMerge: bool)

  /** `sep.join(parts)`. */
  function Join(parts: seq<string>, sep: char): string
  {
    if parts == [] then ""
    else if |parts| == 1 then parts[0]
    else Join(parts[..|parts| - 1], sep) + [sep] + parts[|parts| - 1]
  }

  /** `s.split(sep)`: the pieces between separators; never empty. */
  function Split(s: string, sep: char): (pieces: seq<string>)
    ensures |pieces| >= 1
  {
    if s == [] then [""]
    else if s[0] == sep then [""] + Split(s[1..], sep)
    else
      var rest := Split(s[1..], sep);
      [[s[0]] + rest[0]] + rest[1..]
  }

  lemma {:induction false} SplitNoSep(s: string, sep: char)
    requires sep !in s
    ensures Split(s, sep) == [s]
  {
    if s != [] {
      SplitNoSep(s[1..], sep);
      assert [s[0]] + s[1..] == s;
    }
  }

  /** Splitting at a separator splits each side. */
  lemma {:induction false} SplitAppend(a: string, sep: char, b: string)
    ensures Split(a + [sep] + b, sep) == Split(a, sep) + Split(b, sep)
  {
    if a == [] {
      assert a + [sep] + b == [sep] + b;
      assert ([sep] + b)[1..] == b;
    } else {
      var s := a + [sep] + b;
      assert s[1..] == a[1..] + [sep] + b;
      SplitAppend(a[1..], sep, b);
    }
  }

  /** Joining pieces free of the separator and splitting again gives the pieces back. */
  lemma {:induction false} SplitJoin(parts: seq<string>, sep: char)
    requires parts != []
    requires forall i :: 0 <= i < |parts| ==> sep !in parts[i]
    ensures Split(Join(parts, sep), sep) == parts
    decreases |parts|
  {
    if |parts| == 1 {
      SplitNoSep(parts[0], sep);
    } else {
      var p := parts[..|parts| - 1];
      SplitJoin(p, sep);
      SplitAppend(Join(p, sep), sep, parts[|parts| - 1]);
      SplitNoSep(parts[|parts| - 1], sep);
      assert p + [parts[|parts| - 1]] == parts;
    }
  }

  /** The parts `_build_table_name` collects: catalog and schema when truthy, then the table. */
  function NameParts(settings: WarehouseSettings, table: string): (parts: seq<string>)
    ensures |parts| >= 1 && parts[|parts| - 1] == table
    ensures |parts| == 1 + (if Truthy(settings.catalog) then 1 else 0) + (if Truthy(settings.schema) then 1 else 0)
  {
    (if Truthy(settings.catalog) then [settings.catalog.value] else [])
    + (if Truthy(settings.schema) then [settings.schema.value] else [])
    + [table]
  }

  /** `_build_table_name`: the qualified name. */
  function QualifiedName(settings: WarehouseSettings, table: string): (name: string)
    ensures !Truthy(settings.catalog) && !Truthy(settings.schema) ==> name == table
  {
    Join(NameParts(settings, table), SEP)
  }

  /** When no part contains ".", the qualified name splits back into catalog, schema and table. */
  lemma QualifiedNameSplits(settings: WarehouseSettings, table: string)
    requires SEP !in table
    requires Truthy(settings.catalog) ==> SEP !in settings.catalog.value
    requires Truthy(settings.schema) ==> SEP !in settings.schema.value
    ensures Split(QualifiedName(settings, table), SEP) == NameParts(settings, table)
  {
    var parts := NameParts(settings, table);
    forall i | 0 <= i < |parts|
      ensures SEP !in parts[i]
    {
    }
    SplitJoin(parts, SEP);
  }
}
