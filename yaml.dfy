/**
 * The values a YAML document loads into, and the parts of Python's data model
 * the configuration code relies on: truthiness, `str()`, `repr()` and
 * iteration with `for x in v`.
 */
module Yaml {
  import opened Wrappers
  import opened Util

  /**
   * A loaded YAML value. Mappings keep their entries in document order; a
   * loaded dict never repeats a key, while this type allows it, so lemmas
   * about repeated keys also cover inputs the program cannot be given.
   */
  datatype Value =
    | Null
    | Bool(b: bool)
    | Int(i: int)
    | Str(s: string)
    | List(items: seq<Value>)
    | Mapping(entries: seq<(string, Value)>)

  /** Python truthiness: `not v` is its negation. */
  predicate Truthy(v: Value) {
    match v
    case Null => false
    case Bool(b) => b
    case Int(i) => i != 0
    case Str(s) => s != ""
    case List(items) => items != []
    case Mapping(entries) => entries != []
  }

  /** `type(v).__name__`. */
  function TypeName(v: Value): string {
    match v
    case Null => "NoneType"
    case Bool(_) => "bool"
    case Int(_) => "int"
    case Str(_) => "str"
    case List(_) => "list"
    case Mapping(_) => "dict"
  }

  function HexDigit(d: nat): char
    requires d < 16
  {
    if d < 10 then DigitChar(d) else ('a' as int + d - 10) as char
  }

  /** The lower-case hexadecimal digits of n, zero-padded to `width`. */
  function Hex(n: nat, width: nat): (r: string)
    ensures |r| == width
  {
    if width == 0 then "" else Hex(n / 16, width - 1) + [HexDigit(n % 16)]
  }

  /** How `repr()` writes one character of a string quoted with `quote`. */
  function ReprChar(c: char, quote: char): string {
    var n := c as int;
    if c == quote || c == '\\' then ['\\', c]
    else if c == '\t' then "\\t"
    else if c == '\n' then "\\n"
    else if c == '\r' then "\\r"
    else if n < 0x20 || n == 0x7F then "\\x" + Hex(n, 2)
    else if n < 0x7F || IsPrintable(c) then [c]
    else if n <= 0xFF then "\\x" + Hex(n, 2)
    else if n <= 0xFFFF then "\\u" + Hex(n, 4)
    else "\\U" + Hex(n, 8)
  }

  function ReprBody(s: string, quote: char): string {
    if s == [] then "" else ReprChar(s[0], quote) + ReprBody(s[1..], quote)
  }

  /** `repr()` of a str: single quotes, unless the text has a `'` and no `"`. */
  function ReprStr(s: string): string {
    var quote := if '\'' in s && '"' !in s then '"' else '\'';
    [quote] + ReprBody(s, quote) + [quote]
  }

  /** Printable text without quote or backslash is written as it is. */
  lemma {:induction false} ReprBodyPlain(s: string)
    requires AllPrintable(s) && NoQuote(s) && '\\' !in s
    ensures ReprBody(s, '\'') == s
  {
    if s != [] {
      assert s[1..][0..] == s[1..];
      assert forall i :: 0 <= i < |s[1..]| ==> s[1..][i] == s[i + 1];
      ReprBodyPlain(s[1..]);
    }
  }

  /** Printable text without quote or backslash is repr'd between single quotes. */
  lemma ReprStrPlain(s: string)
    requires AllPrintable(s) && NoQuote(s) && '\\' !in s
    ensures ReprStr(s) == "'" + s + "'"
  {
    ReprBodyPlain(s);
  }

  /** `repr(v)`; for a list or a dict this is also its `str()`. */
  function Repr(v: Value): string
    decreases v, 1
  {
    match v
    case Null => "None"
    case Bool(b) => if b then "True" else "False"
    case Int(i) => Decimal(i)
    case Str(s) => ReprStr(s)
    case List(items) => "[" + ReprItems(v, items) + "]"
    case Mapping(entries) => "{" + ReprEntries(v, entries) + "}"
  }

  function ReprItems(ghost parent: Value, items: seq<Value>): string
    requires forall x :: x in items ==> x < parent
    decreases parent, 0, |items|
  {
    if items == [] then ""
    else
      assert items[0] in items;
      assert forall x :: x in items[1..] ==> x in items;
      if |items| == 1 then Repr(items[0])
      else Repr(items[0]) + ", " + ReprItems(parent, items[1..])
  }

  function ReprEntries(ghost parent: Value, entries: seq<(string, Value)>): string
    requires forall e :: e in entries ==> e.1 < parent
    decreases parent, 0, |entries|
  {
    if entries == [] then ""
    else
      assert entries[0] in entries;
      assert forall e :: e in entries[1..] ==> e in entries;
      var head := ReprStr(entries[0].0) + ": " + Repr(entries[0].1);
      if |entries| == 1 then head else head + ", " + ReprEntries(parent, entries[1..])
  }

  /** `str(v)`, which is also what an f-string `{v}` writes. */
  function Render(v: Value): string {
    match v
    case Str(s) => s
    case _ => Repr(v)
  }

  /**
   * What `for x in v` goes through, each item as `f"{x}"` writes it: the
   * items of a list, the characters of a str, the keys of a dict. None where
   * Python raises TypeError (not iterable).
   */
  function IterationItems(v: Value): Option<seq<string>> {
    match v
    case List(items) => Some(seq(|items|, i requires 0 <= i < |items| => Render(items[i])))
    case Str(s) => Some(seq(|s|, i requires 0 <= i < |s| => [s[i]]))
    case Mapping(entries) => Some(seq(|entries|, i requires 0 <= i < |entries| => entries[i].0))
    case _ => None
  }
}
