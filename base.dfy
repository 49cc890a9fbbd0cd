/** Values shared by the time-series model and the searcher: optional and failing
    results, the exceptions the code raises, the loosely typed arguments it accepts,
    and the string helpers (ASCII case folding, join, split) it relies on. */
module Base {

  datatype Option<+T> = None | Some(value: T)

  /** The exceptions the modelled code raises, with the messages it raises them with. */
  datatype Error =
    | ValueError(message: string)
      /** pandas' `set_index` on a label that is not a column */
    | KeyError(key: string)
      /** a Python list indexed past its end */
    | IndexError
      /** the ORM refusing to append to the `series_groups` relationship a value that is
          not a series group (the error it raises depends on the value) */
    | RelationshipRefused
      /** Python refusing an operand of the wrong type */
    | TypeError

  datatype Result<+T> = Ok(value: T) | Err(error: Error)

  /** Name and description arguments accept either a string or a list of strings,
      and a list given where a string is expected is stored as it is. */
  datatype Text = Str(s: string) | Strs(items: seq<string>)

  /** A cell of a table: its content is only copied, never computed with. */
  datatype Cell = Num(n: int) | Chars(s: string)

  /** Calendar dates and creation timestamps, as ordinals. */
  type Date = int
  type Timestamp = int

  /** The two concrete kinds of series (the polymorphic identity of a SeriesBase row). */
  datatype Kind = TimeSeriesKind | SeriesGroupKind

  /** ASCII case folding: Python's str.lower(), and the database's ILIKE, on ASCII text. */
  function LowerChar(c: char): (r: char)
    ensures 'A' <= c <= 'Z' ==> r as int == c as int + 32
    ensures !('A' <= c <= 'Z') ==> r == c
  {
    if 'A' <= c <= 'Z' then (c as int + 32) as char else c
  }

  function Lower(s: string): (r: string)
    ensures |r| == |s|
    ensures forall i :: 0 <= i < |s| ==> r[i] == LowerChar(s[i])
  {
    seq(|s|, i requires 0 <= i < |s| => LowerChar(s[i]))
  }

  /** `needle` occurs in `hay` as a contiguous piece. */
  predicate IsSubstring(needle: string, hay: string) {
    exists i | 0 <= i <= |hay| :: OccursAt(needle, hay, i)
  }

  predicate OccursAt(needle: string, hay: string, i: nat) {
    i + |needle| <= |hay| && hay[i..i + |needle|] == needle
  }

  /** Python's `sep.join(parts)`. */
  function Join(parts: seq<string>, sep: string): string {
    if |parts| == 0 then ""
    else if |parts| == 1 then parts[0]
    else parts[0] + sep + Join(parts[1..], sep)
  }

  /** The position of the first `x` in `s`. */
  function IndexOf<T(==)>(s: seq<T>, x: T): (k: nat)
    requires x in s
    ensures k < |s| && s[k] == x && x !in s[..k]
  {
    if s[0] == x then 0
    else
      assert x in s[1..] by { assert s == [s[0]] + s[1..]; }
      var k := 1 + IndexOf(s[1..], x);
      assert s[..k] == [s[0]] + s[1..][..k - 1];
      k
  }

  /** Python's `s.split(sep)` for a one-character separator: every occurrence
      splits, so neighbouring separators produce empty pieces. */
  function Split(s: string, sep: char): (parts: seq<string>)
    ensures |parts| >= 1
    ensures forall i :: 0 <= i < |parts| ==> sep !in parts[i]
    ensures Join(parts, [sep]) == s
    ensures sep !in s <==> parts == [s]
    decreases |s|
  {
    if sep !in s then [s]
    else
      var k := IndexOf(s, sep);
      var rest := Split(s[k + 1..], sep);
      assert s == s[..k] + [sep] + s[k + 1..];
      [s[..k]] + rest
  }
}
