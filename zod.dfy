/**
 * The schema building blocks the request validators use, over decoded JSON
 * values: a parser gives Some(output) for an accepted value and None for a
 * rejected one. Lengths are JavaScript string lengths (UTF-16 code units).
 */
module Zod {
  import opened Wrappers
  import opened Text
  import opened Json

  /** z.string().min(min).max(max). */
  function StringBetween(v: Value, min: nat, max: Option<nat>): (r: Option<string>)
    ensures r.Some? <==> v.Str? && min <= Utf16Length(v.s) && (max.None? || Utf16Length(v.s) <= max.value)
    ensures r.Some? ==> r.value == v.s
  {
    if v.Str? && min <= Utf16Length(v.s) && (max.None? || Utf16Length(v.s) <= max.value) then Some(v.s) else None
  }

  /** z.string(). */
  function AnyString(v: Value): (r: Option<string>)
    ensures r.Some? <==> v.Str?
    ensures r.Some? ==> r.value == v.s
  {
    StringBetween(v, 0, None)
  }

  /** z.number().int().min(lo).max(hi). */
  function IntBetween(v: Value, lo: int, hi: int): (r: Option<int>)
    ensures r.Some? <==> v.Num? && IsInteger(v.n) && lo <= v.n.Floor <= hi
    ensures r.Some? ==> r.value as real == v.n
  {
    if v.Num? && IsInteger(v.n) && lo <= v.n.Floor <= hi then Some(v.n.Floor) else None
  }

  /** z.number().int().positive(). */
  function PositiveInt(v: Value): (r: Option<int>)
    ensures r.Some? <==> v.Num? && IsInteger(v.n) && v.n > 0.0
    ensures r.Some? ==> r.value > 0 && r.value as real == v.n
  {
    if v.Num? && IsInteger(v.n) && v.n > 0.0 then Some(v.n.Floor) else None
  }

  /**
   * `.optional()` on field `key`: an absent key is accepted as None; a present
   * one (null included) must pass `inner`.
   */
  function Optional<T>(o: Object, key: string, inner: Value -> Option<T>): (r: Option<Option<T>>)
    ensures key !in o ==> r == Some(None)
    ensures key in o ==> (r.Some? <==> inner(o[key]).Some?)
    ensures key in o && r.Some? ==> r.value == inner(o[key])
  {
    if key !in o then Some(None)
    else match inner(o[key])
      case None => None
      case Some(x) => Some(Some(x))
  }

  /** A required field: absent is rejected. */
  function Required<T>(o: Object, key: string, inner: Value -> Option<T>): (r: Option<T>)
    ensures r.Some? <==> key in o && inner(o[key]).Some?
    ensures r.Some? ==> r == inner(o[key])
  {
    if key in o then inner(o[key]) else None
  }

  predicate IsHexDigit(c: char) {
    '0' <= c <= '9' || 'a' <= c <= 'f' || 'A' <= c <= 'F'
  }

  /** The positions of the hyphens in the 8-4-4-4-12 form. */
  predicate IsHyphenPosition(i: int) {
    i == 8 || i == 13 || i == 18 || i == 23
  }

  /**
   * z.string().uuid(): the hyphenated 8-4-4-4-12 hexadecimal form of section 3
   * of RFC 4122, in either case. Version and variant digits are not checked.
   */
  predicate IsUuid(s: string) {
    |s| == 36 && forall i :: 0 <= i < 36 ==> if IsHyphenPosition(i) then s[i] == '-' else IsHexDigit(s[i])
  }

  /** The nil UUID with a last digit of 1 has the right shape. */
  lemma SampleUuid()
    ensures IsUuid("00000000-0000-0000-0000-000000000001")
  {
  }

  /** A string containing a character that is neither a hex digit nor a hyphen is not a UUID. */
  lemma UuidCharacters(s: string, i: int)
    requires 0 <= i < |s| && s[i] != '-' && !IsHexDigit(s[i])
    ensures !IsUuid(s)
  {
  }

  /** z.enum([a, b]) over strings. */
  function OneOf(v: Value, choices: seq<string>): (r: Option<string>)
    ensures r.Some? <==> v.Str? && v.s in choices
    ensures r.Some? ==> r.value == v.s
  {
    if v.Str? && v.s in choices then Some(v.s) else None
  }
}
