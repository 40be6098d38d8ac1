/**
 * The slice of PHP's value semantics that the party validators, the party
 * mappers and the invoice setters rely on: associative input records,
 * `empty()`, `isset()`, `??`, truthiness, `strtoupper` and `trim`.
 */
module PhpValues {

  /** A value stored in an input record: `null`, a string, or a nested array. */
  datatype PVal = Null | Str(s: string) | Arr(m: map<string, PVal>)

  /** A PHP nullable (`?T`) field or result: `None` is `null`. */
  datatype Option<T> = None | Some(value: T)

  /** An associative input record, such as the supplier or customer data array. */
  type Record = map<string, PVal>

  /**
   * `$data[key]` read inside `empty`, `isset`, `??` or `?:`: an absent key
   * reads as `null`, exactly as those constructs treat it.
   */
  function Lookup(data: Record, key: string): PVal
  {
    if key in data then data[key] else Null
  }

  /**
   * `$v[key]` on an arbitrary value inside `empty`, `isset` or `??`: only an
   * array has entries; a string offset such as `'abc'['id']` is never set.
   */
  function Get(v: PVal, key: string): PVal
  {
    match v
    case Arr(m) => if key in m then m[key] else Null
    case _ => Null
  }

  /** PHP `empty()`: null, `""`, `"0"` and the empty array. */
  predicate Empty(v: PVal)
  {
    match v
    case Null => true
    case Str(s) => s == "" || s == "0"
    case Arr(m) => m == map[]
  }

  /** PHP truthiness (`if ($v)`, `$v ?: $d`) is the negation of `empty()`. */
  predicate Truthy(v: PVal)
  {
    !Empty(v)
  }

  /** PHP `isset()`: present and not null. */
  predicate Isset(v: PVal)
  {
    v != Null
  }

  /** PHP `$v ?? $default`. */
  function Coalesce(v: PVal, default: PVal): PVal
  {
    if Isset(v) then v else default
  }

  /** PHP `$v ?: $default`. */
  function Elvis(v: PVal, default: PVal): PVal
  {
    if Truthy(v) then v else default
  }

  /** ASCII upper-casing of one character, as `strtoupper` does. */
  function UpperChar(c: char): char
  {
    if 'a' <= c <= 'z' then (c as int - 'a' as int + 'A' as int) as char else c
  }

  /** PHP `strtoupper`: ASCII letters only, every other character unchanged. */
  function Upper(s: string): (r: string)
    ensures |r| == |s|
    ensures forall i :: 0 <= i < |s| ==> r[i] == UpperChar(s[i])
  {
    seq(|s|, i requires 0 <= i < |s| => UpperChar(s[i]))
  }

  /** The characters PHP `trim` strips by default: " \t\n\r\0\x0B". */
  predicate IsTrimmed(c: char)
  {
    c == ' ' || c == '\t' || c == '\n' || c == '\r' || c == '\0' || c == '\U{000B}'
  }

  function TrimLeft(s: string): string
  {
    if s != [] && IsTrimmed(s[0]) then TrimLeft(s[1..]) else s
  }

  function TrimRight(s: string): string
  {
    if s != [] && IsTrimmed(s[|s| - 1]) then TrimRight(s[..|s| - 1]) else s
  }

  /** PHP `trim` with its default character list. */
  function Trim(s: string): string
  {
    TrimRight(TrimLeft(s))
  }

  /** A string is blank when it consists of trimmed characters only. */
  predicate Blank(s: string)
  {
    forall i :: 0 <= i < |s| ==> IsTrimmed(s[i])
  }

  lemma {:induction false} TrimLeftBlank(s: string)
    ensures TrimLeft(s) == [] <==> Blank(s)
    ensures TrimLeft(s) != [] ==> !IsTrimmed(TrimLeft(s)[0])
    decreases |s|
  {
    if s != [] && IsTrimmed(s[0]) {
      TrimLeftBlank(s[1..]);
      if Blank(s[1..]) {
        assert forall i :: 0 <= i < |s| ==> IsTrimmed(s[i]) by {
          forall i | 0 <= i < |s| ensures IsTrimmed(s[i]) {
            if i > 0 { assert s[i] == s[1..][i - 1]; }
          }
        }
      } else {
        var k :| 0 <= k < |s[1..]| && !IsTrimmed(s[1..][k]);
        assert !IsTrimmed(s[k + 1]);
      }
    } else if s != [] {
      assert !IsTrimmed(s[0]);
    }
  }

  lemma {:induction false} TrimRightKeepsHead(s: string)
    requires s != [] && !IsTrimmed(s[0])
    ensures TrimRight(s) != [] && TrimRight(s)[0] == s[0]
    decreases |s|
  {
    if IsTrimmed(s[|s| - 1]) {
      assert |s| > 1;
      TrimRightKeepsHead(s[..|s| - 1]);
    }
  }

  /** `trim($s) === ''` holds exactly when `$s` is made of trimmed characters. */
  lemma TrimEmptyIffBlank(s: string)
    ensures Trim(s) == "" <==> Blank(s)
  {
    TrimLeftBlank(s);
    if TrimLeft(s) != [] {
      TrimRightKeepsHead(TrimLeft(s));
    }
  }
}
