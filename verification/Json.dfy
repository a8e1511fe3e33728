/** JSON values, as the upgrade script sees them after parsing. */
module Json {
  import opened Sequences
  import opened Wrappers

  const MAX_SQLITE_INTEGER: nat := 0x7FFF_FFFF_FFFF_FFFF

  /** `Number` is a number that is not an integer, kept as its text. */
  datatype Json =
    | Null
    | Bool(b: bool)
    | Int(n: int)
    | Number(text: string)
    | Str(s: string)
    | Arr(items: seq<Json>)
    | Obj(fields: map<string, Json>)

  /** Looks a field up the way `dict.get` does: a missing field reads as null. */
  function Get(fields: map<string, Json>, key: string): Json {
    if key in fields then fields[key] else Null
  }

  predicate Has(value: Json, key: string, field: Json) {
    value.Obj? && Get(value.fields, key) == field
  }

  function Utf8Length(s: string): nat
    decreases |s|
  {
    if s == "" then 0
    else
      var c := s[|s| - 1] as int;
      Utf8Length(s[..|s| - 1])
      + if c < 0x80 then 1 else if c < 0x800 then 2 else if c < 0x1_0000 then 3 else 4
  }

  predicate IsSpace(c: char) {
    var n := c as int;
    || 0x09 <= n <= 0x0D || 0x1C <= n <= 0x20 || n == 0x85 || n == 0xA0 || n == 0x1680
    || 0x2000 <= n <= 0x200A || n == 0x2028 || n == 0x2029 || n == 0x202F || n == 0x205F || n == 0x3000
  }

  predicate Blank(s: string) {
    forall i :: 0 <= i < |s| ==> IsSpace(s[i])
  }

  /** UTF-8 takes one to four bytes for a character, by its code point alone. */
  lemma {:induction false} Utf8Is(s: string, c: char)
    ensures Utf8Length("") == 0
    ensures Utf8Length(s + [c]) == Utf8Length(s) + |Utf8(c)|
  {
    assert (s + [c])[..|s|] == s;
  }

  /** The bytes of one character. */
  function Utf8(c: char): seq<nat> {
    var n := c as nat;
    if n <= 0x7F then [n]
    else if n <= 0x7FF then [0xC0 + n / 64, 0x80 + n % 64]
    else if n <= 0xFFFF then [0xE0 + n / 4096, 0x80 + n / 64 % 64, 0x80 + n % 64]
    else [0xF0 + n / 262144, 0x80 + n / 4096 % 64, 0x80 + n / 64 % 64, 0x80 + n % 64]
  }

  /** The characters that count as blank, one by one. */
  lemma SpacesAre(c: char)
    ensures IsSpace(c) <==>
            c in {'\U{9}', '\n', '\U{B}', '\U{C}', '\r', '\U{1C}', '\U{1D}', '\U{1E}', '\U{1F}', ' ',
                  '\U{85}', '\U{A0}', '\U{1680}', '\U{2000}', '\U{2001}', '\U{2002}', '\U{2003}', '\U{2004}',
                  '\U{2005}', '\U{2006}', '\U{2007}', '\U{2008}', '\U{2009}', '\U{200A}', '\U{2028}',
                  '\U{2029}', '\U{202F}', '\U{205F}', '\U{3000}'}
  {
  }
}
