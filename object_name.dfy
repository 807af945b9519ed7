/**
 * Target-table derivation: the table a storage object loads into is
 * `gcFile.name.split('.')[0]` (gcs2postgresql.js:63 and :72).
 */
module ObjectName {
  /**
   * JavaScript's `s.split(sep)` for a one-character separator: the maximal
   * runs between separators, in order, including empty ones
   * (`"".split(".")` is `[""]`, `".".split(".")` is `["", ""]`).
   */
  function Split(s: string, sep: char): (parts: seq<string>)
    ensures |parts| >= 1
    ensures forall i :: 0 <= i < |parts| ==> sep !in parts[i]
    ensures parts[0] <= s
    ensures |parts[0]| == |s| || s[|parts[0]|] == sep
    decreases |s|
  {
    if s == [] then [[]]
    else
      var rest := Split(s[1..], sep);
      if s[0] == sep then [[]] + rest
      else [[s[0]] + rest[0]] + rest[1..]
  }

  /** `parts.join(sep)`. */
  function Join(parts: seq<string>, sep: char): string
    requires |parts| >= 1
    decreases |parts|
  {
    if |parts| == 1 then parts[0] else parts[0] + [sep] + Join(parts[1..], sep)
  }

  /** Splitting loses nothing: joining the parts back gives the original string. */
  lemma {:induction false} JoinSplit(s: string, sep: char)
    ensures Join(Split(s, sep), sep) == s
    decreases |s|
  {
    if s != [] {
      var rest := Split(s[1..], sep);
      JoinSplit(s[1..], sep);
      if s[0] == sep {
        assert Split(s, sep) == [[]] + rest;
        assert ([[]] + rest)[1..] == rest;
      } else {
        var parts := [[s[0]] + rest[0]] + rest[1..];
        assert Split(s, sep) == parts;
        if |rest| > 1 {
          assert parts[1..] == rest[1..];
          assert Join(rest, sep) == rest[0] + [sep] + Join(rest[1..], sep);
        }
        assert [s[0]] + s[1..] == s;
      }
    }
  }

  /** How Split treats a leading separator. */
  lemma SplitSeparatorFirst(s: string, sep: char)
    ensures Split([sep] + s, sep) == [[]] + Split(s, sep)
  {
    assert ([sep] + s)[1..] == s;
  }

  /** How Split treats a leading ordinary character. */
  lemma SplitOtherFirst(c: char, s: string, sep: char)
    requires c != sep
    ensures Split([c] + s, sep) == [[c] + Split(s, sep)[0]] + Split(s, sep)[1..]
  {
    assert ([c] + s)[1..] == s;
  }

  /** Prefixing the first part with a character prefixes the join with it. */
  lemma JoinPrependChar(c: char, parts: seq<string>, sep: char)
    requires |parts| >= 1
    ensures Join([[c] + parts[0]] + parts[1..], sep) == [c] + Join(parts, sep)
  {
    var longer := [[c] + parts[0]] + parts[1..];
    if |parts| > 1 {
      assert longer[1..] == parts[1..];
    }
  }

  /** Parts free of the separator are recovered exactly by splitting their join. */
  lemma {:induction false} SplitJoin(parts: seq<string>, sep: char)
    requires |parts| >= 1
    requires forall i :: 0 <= i < |parts| ==> sep !in parts[i]
    ensures Split(Join(parts, sep), sep) == parts
    decreases |parts|, |parts[0]|
  {
    var p := parts[0];
    if p == [] {
      if |parts| > 1 {
        SplitJoin(parts[1..], sep);
        assert Join(parts, sep) == [sep] + Join(parts[1..], sep);
        SplitSeparatorFirst(Join(parts[1..], sep), sep);
      }
    } else {
      var tail := [p[1..]] + parts[1..];
      forall i | 0 <= i < |tail| ensures sep !in tail[i] {
        if i > 0 {
          assert tail[i] == parts[i];
        }
      }
      SplitJoin(tail, sep);
      assert tail[0] == p[1..] && tail[1..] == parts[1..];
      assert [p[0]] + p[1..] == p;
      assert parts == [p] + parts[1..];
      JoinPrependChar(p[0], tail, sep);
      assert p[0] in p;
      SplitOtherFirst(p[0], Join(tail, sep), sep);
    }
  }

  /** The table name of a storage object: the object name up to its first `.`. */
  function TableName(objectName: string): (table: string)
    ensures '.' !in table
    ensures table <= objectName
    ensures |table| == |objectName| || objectName[|table|] == '.'
  {
    Split(objectName, '.')[0]
  }

  /**
   * The three properties in TableName's contract pin the table name down:
   * it is the longest `.`-free prefix of the object name.
   */
  lemma TableNameUnique(objectName: string, t: string)
    requires '.' !in t
    requires t <= objectName
    requires |t| == |objectName| || objectName[|t|] == '.'
    ensures t == TableName(objectName)
  {
    var table := TableName(objectName);
    assert t == objectName[..|t|] && table == objectName[..|table|];
  }

  /** The whole name when it has no `.`. */
  lemma TableNameWithoutDot(objectName: string)
    requires '.' !in objectName
    ensures TableName(objectName) == objectName
  {
    TableNameUnique(objectName, objectName);
  }

  /** Deriving the table from a table name changes nothing. */
  lemma TableNameIdempotent(objectName: string)
    ensures TableName(TableName(objectName)) == TableName(objectName)
  {
    TableNameWithoutDot(TableName(objectName));
  }

  /** Only the first `.` matters: `users.json` loads into `users`, `a.b.json` into `a`. */
  lemma TableNameExamples()
    ensures TableName("users.json") == "users"
    ensures TableName("a.b.json") == "a"
    ensures TableName("users") == "users"
    ensures TableName(".json") == ""
  {
    TableNameUnique("users.json", "users");
    TableNameUnique("a.b.json", "a");
    TableNameWithoutDot("users");
    TableNameUnique(".json", "");
  }
}
