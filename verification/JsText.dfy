/** JavaScript text: a sequence of UTF-16 code units. `length` and `slice` count
    code units; a TextEncoder counts bytes. */
module JsText {

  type CodeUnit = n: int | 0 <= n < 0x1_0000

  type Text = seq<CodeUnit>

  predicate IsHighSurrogate(u: CodeUnit) { 0xD800 <= u < 0xDC00 }

  predicate IsLowSurrogate(u: CodeUnit) { 0xDC00 <= u < 0xE000 }

  /** Bytes of one code unit that is not half of a surrogate pair. A lone
      surrogate is encoded as U+FFFD, three bytes like the rest of the plane. */
  function UnitBytes(u: CodeUnit): nat {
    if u < 0x80 then 1 else if u < 0x800 then 2 else 3
  }

  /** The byte length that a TextEncoder reports. */
  function Utf8Length(s: Text): (bytes: nat)
    ensures |s| <= bytes <= 3 * |s|
  {
    if s == [] then
      0
    else if |s| >= 2 && IsHighSurrogate(s[0]) && IsLowSurrogate(s[1]) then
      4 + Utf8Length(s[2..])
    else
      UnitBytes(s[0]) + Utf8Length(s[1..])
  }

  predicate BeginsWithPair(s: Text) {
    |s| >= 2 && IsHighSurrogate(s[0]) && IsLowSurrogate(s[1])
  }

  lemma Utf8LengthUnfolds(s: Text)
    requires s != []
    ensures Utf8Length(s) == if BeginsWithPair(s) then 4 + Utf8Length(s[2..]) else UnitBytes(s[0]) + Utf8Length(s[1..])
  {
  }

  /** Taking the first unit or pair off a text that is followed by another one. */
  lemma FrontOfConcat(a: Text, b: Text, n: nat)
    requires a != [] && b != [] && !(0xD800 <= a[|a| - 1] < 0xDC00 && 0xDC00 <= b[0] < 0xE000)
    requires n == if BeginsWithPair(a) then 2 else 1
    ensures BeginsWithPair(a + b) <==> BeginsWithPair(a)
    ensures n <= |a| && (a + b)[n..] == a[n..] + b && (a + b)[0] == a[0]
    ensures a[n..] != [] ==> a[n..][|a[n..]| - 1] == a[|a| - 1]
  {
  }

  /** Byte lengths add up wherever no surrogate pair is cut. */
  lemma {:induction false} Utf8LengthAdds(a: Text, b: Text)
    requires a == [] || b == [] || !(0xD800 <= a[|a| - 1] < 0xDC00 && 0xDC00 <= b[0] < 0xE000)
    ensures Utf8Length(a + b) == Utf8Length(a) + Utf8Length(b)
    decreases |a|
  {
    hide UnitBytes, BeginsWithPair;
    if a == [] {
      assert a + b == b;
    } else if b == [] {
      assert a + b == a;
    } else {
      hide Utf8Length;
      var n := if BeginsWithPair(a) then 2 else 1;
      FrontOfConcat(a, b, n);
      Utf8LengthAdds(a[n..], b);
      Utf8LengthUnfolds(a);
      Utf8LengthUnfolds(a + b);
    }
  }

  /** The parts: units below 128 take one byte, those below 2048 two, a surrogate pair
      four and every other unit three. */
  lemma Utf8LengthOfParts(u: CodeUnit, v: CodeUnit)
    ensures Utf8Length([]) == 0
    ensures Utf8Length([u]) == if u < 128 then 1 else if u < 2048 then 2 else 3
    ensures 0xD800 <= u < 0xDC00 && 0xDC00 <= v < 0xE000 ==> Utf8Length([u, v]) == 4
  {
    assert [u][1..] == [] && [u, v][2..] == [];
  }

  predicate IsWhitespace(u: CodeUnit) {
    || 9 <= u <= 13 || u == 0x20 || u == 0xA0 || u == 0x1680
    || 0x2000 <= u <= 0x200A || u == 0x2028 || u == 0x2029
    || u == 0x202F || u == 0x205F || u == 0x3000 || u == 0xFEFF
  }

  /** `!text.trim()` */
  predicate IsBlank(s: Text) {
    forall i :: 0 <= i < |s| ==> IsWhitespace(s[i])
  }

  /** `text.slice(0, n)` */
  function Take<T>(s: seq<T>, n: nat): (r: seq<T>)
    ensures r <= s && |r| <= n
    ensures |s| <= n ==> r == s
  {
    if |s| <= n then s else s[..n]
  }

  /** `items.slice(-n)` for n > 0 */
  function TakeLast<T>(s: seq<T>, n: nat): (r: seq<T>)
    ensures |r| <= n && |r| <= |s| && r == s[|s| - |r|..]
    ensures |s| <= n ==> r == s
  {
    if |s| <= n then s else s[|s| - n..]
  }

  predicate IsAlphanumeric(c: char) {
    'a' <= c <= 'z' || 'A' <= c <= 'Z' || '0' <= c <= '9'
  }

  /** The identifier pattern that every chat operation applies to its ids. */
  predicate IsSafeId(id: string) {
    && 1 <= |id| <= 128
    && IsAlphanumeric(id[0])
    && forall i :: 1 <= i < |id| ==> IsAlphanumeric(id[i]) || id[i] in "._:-"
  }
}
